/** ofxOpenVRSyncCoord (src/ofxOpenVRSyncCoord.cpp): a 4 x 4 matrix kept as
    its 16 entries in the order ofMatrix4x4::set takes them and getPtr gives
    them back, read from and written to a line of 16 space-separated
    numbers. The conversions between a number and its text (ofToFloat,
    ofToString) are the parameters `parse` and `show`. */
module SyncCoord {

  const MatrixSize: nat := 16
  const Space: char := ' '

  // ---- splitting and joining at spaces ----

  /** The position of the first space of a text that has one. */
  function FirstSpace(s: string): (i: nat)
    requires Space in s
    ensures i < |s| && s[i] == Space && Space !in s[..i]
  {
    if s[0] == Space then 0
    else
      assert Space in s[1..] by {
        var k :| 0 <= k < |s| && s[k] == Space;
        assert s[1..][k - 1] == Space;
      }
      var i := 1 + FirstSpace(s[1..]);
      assert s[..i] == [s[0]] + s[1..][..i - 1];
      i
  }

  /** ofSplitString(s, " ") with its defaults: the pieces between the
      spaces, in order, empty pieces kept, so a text with n spaces gives
      n + 1 pieces and the empty text gives one empty piece. */
  function Split(s: string): (parts: seq<string>)
    ensures |parts| >= 1
    ensures forall k :: 0 <= k < |parts| ==> Space !in parts[k]
    decreases |s|
  {
    if Space !in s then [s]
    else
      var i := FirstSpace(s);
      [s[..i]] + Split(s[i + 1..])
  }

  /** The pieces joined with one space between neighbours: nothing for no
      pieces, and otherwise a text that starts with the first piece. */
  function Join(parts: seq<string>): (r: string)
    ensures parts == [] ==> r == []
    ensures parts != [] ==> parts[0] <= r
  {
    if parts == [] then ""
    else if |parts| == 1 then parts[0]
    else parts[0] + [Space] + Join(parts[1..])
  }

  /** Appending one more piece to a join adds a space and the piece. */
  lemma {:induction false} JoinSnoc(parts: seq<string>, p: string)
    requires parts != []
    ensures Join(parts + [p]) == Join(parts) + [Space] + p
    decreases |parts|
  {
    if |parts| == 1 {
      assert parts + [p] == [parts[0], p];
    } else {
      assert (parts + [p])[1..] == parts[1..] + [p];
      JoinSnoc(parts[1..], p);
    }
  }

  /** Joining two non-empty batches puts one space between their joins. */
  lemma {:induction false} JoinAppend(a: seq<string>, b: seq<string>)
    requires a != [] && b != []
    ensures Join(a + b) == Join(a) + [Space] + Join(b)
    decreases |a|
  {
    if |a| == 1 {
      assert (a + b)[1..] == b;
    } else {
      assert (a + b)[1..] == a[1..] + b;
      JoinAppend(a[1..], b);
    }
  }

  /** A join of non-empty pieces starts with the first piece's first
      character and ends with the last piece's last character. */
  lemma {:induction false} JoinEnds(parts: seq<string>)
    requires parts != []
    requires forall k :: 0 <= k < |parts| ==> parts[k] != []
    ensures var s := Join(parts);
      s != [] && s[0] == parts[0][0] && s[|s| - 1] == parts[|parts| - 1][|parts[|parts| - 1]| - 1]
    decreases |parts|
  {
    if |parts| > 1 {
      JoinEnds(parts[1..]);
    }
  }

  /** Splitting undoes joining pieces that hold no space. */
  lemma {:induction false} SplitJoin(parts: seq<string>)
    requires parts != []
    requires forall k :: 0 <= k < |parts| ==> Space !in parts[k]
    ensures Split(Join(parts)) == parts
    decreases |parts|
  {
    if |parts| > 1 {
      var s := Join(parts);
      var p := parts[0];
      assert s == p + [Space] + Join(parts[1..]);
      assert s[|p|] == Space && s[..|p|] == p;
      assert FirstSpace(s) == |p|;
      assert s[|p| + 1..] == Join(parts[1..]);
      SplitJoin(parts[1..]);
    }
  }

  // ---- the matrix ----

  /** The identity matrix makeIdentityMatrix sets: ones on the diagonal,
      entries 0, 5, 10 and 15 in row order. */
  function Identity(): (m: seq<real>)
    ensures |m| == MatrixSize
  {
    seq(MatrixSize, i requires 0 <= i < MatrixSize => if i % 5 == 0 then 1.0 else 0.0)
  }

  /** Entry (r, c) of Identity is 1 on the diagonal and 0 elsewhere. */
  lemma IdentityIsDiagonal(r: nat, c: nat)
    requires r < 4 && c < 4
    ensures Identity()[4 * r + c] == if r == c then 1.0 else 0.0
  {
    assert (4 * r + c) % 5 == 0 <==> r == c;
  }

  /** The matrix setup(text) leaves: the first 16 pieces of the text,
      converted, when there are at least 16 of them; the identity otherwise. */
  function SetupMatrix(text: string, parse: string -> real): (m: seq<real>)
    ensures |m| == MatrixSize
    ensures |Split(text)| < MatrixSize ==> m == Identity()
    ensures |Split(text)| >= MatrixSize ==> forall i :: 0 <= i < MatrixSize ==> m[i] == parse(Split(text)[i])
  {
    var a := Split(text);
    if |a| >= MatrixSize then seq(MatrixSize, i requires 0 <= i < MatrixSize => parse(a[i]))
    else Identity()
  }

  /** The texts of the entries, in order. */
  function EntryTexts(m: seq<real>, show: real -> string): (t: seq<string>)
    ensures |t| == |m|
  {
    seq(|m|, i requires 0 <= i < |m| => show(m[i]))
  }

  /** The string packToString returns: the entries' texts joined by spaces,
      so it starts with the first entry's text. */
  function PackedText(m: seq<real>, show: real -> string): (r: string)
    ensures m != [] ==> show(m[0]) <= r
  {
    Join(EntryTexts(m, show))
  }

  /** The entry texts hold no space when `show` writes none. */
  lemma EntryTextsHaveNoSpace(m: seq<real>, show: real -> string)
    requires forall x :: Space !in show(x)
    ensures forall k :: 0 <= k < |m| ==> Space !in EntryTexts(m, show)[k]
  {
    var t := EntryTexts(m, show);
    forall k | 0 <= k < |t| ensures Space !in t[k] {
      var x := m[k];
      assert Space !in show(x);
    }
  }

  /** The entry texts are non-empty when `show` never writes "". */
  lemma EntryTextsNonEmpty(m: seq<real>, show: real -> string)
    requires forall x :: show(x) != ""
    ensures forall k :: 0 <= k < |m| ==> EntryTexts(m, show)[k] != []
  {
    var t := EntryTexts(m, show);
    forall k | 0 <= k < |t| ensures t[k] != [] {
      var x := m[k];
      assert show(x) != "";
    }
  }

  /** With texts that hold no space, the packed string splits into exactly
      the 16 entry texts; with non-empty texts it neither starts nor ends
      with a space. */
  lemma PackedTextShape(m: seq<real>, show: real -> string)
    requires |m| == MatrixSize
    requires forall x :: Space !in show(x)
    ensures Split(PackedText(m, show)) == EntryTexts(m, show)
    ensures |Split(PackedText(m, show))| == MatrixSize
    ensures (forall x :: show(x) != "") ==>
      var s := PackedText(m, show); s != [] && s[0] != Space && s[|s| - 1] != Space
  {
    var t := EntryTexts(m, show);
    EntryTextsHaveNoSpace(m, show);
    SplitJoin(t);
    if forall x :: show(x) != "" {
      EntryTextsNonEmpty(m, show);
      JoinEnds(t);
      assert Space !in t[0] && Space !in t[|t| - 1];
    }
  }

  /** Saving and loading: when `parse` reads back exactly what `show`
      wrote and `show` writes no space, setup(packToString()) restores the
      matrix. */
  lemma PackThenSetupRestores(m: seq<real>, show: real -> string, parse: string -> real)
    requires |m| == MatrixSize
    requires forall x :: Space !in show(x)
    requires forall x :: parse(show(x)) == x
    ensures SetupMatrix(PackedText(m, show), parse) == m
  {
    PackedTextShape(m, show);
    var t := EntryTexts(m, show);
    var r := SetupMatrix(PackedText(m, show), parse);
    forall i | 0 <= i < MatrixSize ensures r[i] == m[i] {
      assert r[i] == parse(t[i]);
      assert t[i] == show(m[i]);
    }
  }

  /** Pieces after the sixteenth are ignored. */
  lemma TrailingTokensIgnored(tokens: seq<string>, more: seq<string>, parse: string -> real)
    requires |tokens| == MatrixSize && more != []
    requires forall k :: 0 <= k < |tokens| ==> Space !in tokens[k]
    requires forall k :: 0 <= k < |more| ==> Space !in more[k]
    ensures SetupMatrix(Join(tokens) + [Space] + Join(more), parse) == SetupMatrix(Join(tokens), parse)
  {
    var all := tokens + more;
    forall k | 0 <= k < |all| ensures Space !in all[k] {
      if k < |tokens| {
        assert all[k] == tokens[k];
      } else {
        assert all[k] == more[k - |tokens|];
      }
    }
    JoinAppend(tokens, more);
    SplitJoin(all);
    SplitJoin(tokens);
    var r, r' := SetupMatrix(Join(all), parse), SetupMatrix(Join(tokens), parse);
    forall i | 0 <= i < MatrixSize ensures r[i] == r'[i] {
      assert all[i] == tokens[i];
    }
  }

  class SyncCoord {
    /** matrix_, as its 16 entries. */
    var matrix: seq<real>

    /** The matrix has its 16 entries. */
    predicate Valid()
      reads this
    {
      |matrix| == MatrixSize
    }

    /** A default-constructed ofMatrix4x4 is the identity. */
    constructor()
      ensures Valid() && matrix == Identity()
    {
      matrix := Identity();
    }

    /** reset: the identity matrix. */
    method Reset()
      modifies this
      ensures Valid() && matrix == Identity()
    {
      matrix := Identity();
    }

    /** setup: resets, then takes the first 16 space-separated pieces of
        `text` when there are at least 16. */
    method Setup(text: string, parse: string -> real)
      modifies this
      ensures Valid() && matrix == SetupMatrix(text, parse)
    {
      Reset();
      var a := Split(text);
      if |a| >= MatrixSize {
        var v := new real[MatrixSize];
        for i := 0 to MatrixSize
          invariant forall k :: 0 <= k < i ==> v[k] == parse(a[k])
        {
          v[i] := parse(a[i]);
        }
        matrix := v[..];
      }
    }

    /** packToString: the 16 entries' texts, a space before every one but
        the first. */
    method PackToString(show: real -> string) returns (s: string)
      requires Valid()
      ensures s == PackedText(matrix, show)
    {
      var texts := EntryTexts(matrix, show);
      s := "";
      for i := 0 to MatrixSize
        invariant s == Join(texts[..i])
      {
        if i > 0 {
          s := s + [Space];
          JoinSnoc(texts[..i], texts[i]);
        }
        s := s + show(matrix[i]);
        assert texts[..i + 1] == texts[..i] + [texts[i]];
      }
      assert texts[..MatrixSize] == texts;
    }
  }

}
