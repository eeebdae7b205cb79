/** The 360-degree image player example (example-360Player/src/ofApp.cpp):
    a help toggle, the mirror-window toggle, and loading a dropped image
    after turning its path's backslashes into slashes. */
module PlayerApp {
  import opened OpenVR

  const Backslash: char := '\\'
  const Slash: char := '/'

  /** The path std::replace(path.begin(), path.end(), '\\', '/') leaves. */
  function SlashPath(path: string): (p: string)
    ensures |p| == |path|
  {
    seq(|path|, i requires 0 <= i < |path| => if path[i] == Backslash then Slash else path[i])
  }

  /** No backslash survives, each backslash became a slash and every other
      character is unchanged at its position. */
  lemma SlashPathReplacesOnlyBackslashes(path: string)
    ensures Backslash !in SlashPath(path)
    ensures forall i :: 0 <= i < |path| ==>
      SlashPath(path)[i] == (if path[i] == Backslash then Slash else path[i])
  {
    var p := SlashPath(path);
    forall i | 0 <= i < |p| ensures p[i] != Backslash {
      assert p[i] == (if path[i] == Backslash then Slash else path[i]);
    }
  }

  /** Normalising twice is normalising once. */
  lemma SlashPathIdempotent(path: string)
    ensures SlashPath(SlashPath(path)) == SlashPath(path)
  {
    SlashPathReplacesOnlyBackslashes(path);
  }

  /** The std::replace pass over the path, character by character. */
  method NormalizePath(path: string) returns (p: string)
    ensures p == SlashPath(path)
  {
    p := path;
    var i := 0;
    while i < |p|
      invariant 0 <= i <= |p| == |path|
      invariant p[..i] == SlashPath(path)[..i]
      invariant p[i..] == path[i..]
    {
      if p[i] == Backslash {
        p := p[i := Slash];
      }
      i := i + 1;
    }
    assert p == p[..i];
  }

  class PlayerApp {
    const vr: OpenVR
    var showHelp: bool
    /** The path of the image the panorama shows. */
    var imagePath: string

    /** setup: help shown, the bundled image loaded. */
    constructor(hmd: bool)
      ensures fresh(vr) && vr.hmdPresent == hmd && vr.Valid() && !vr.mirrorVisible
      ensures showHelp && imagePath == "DSCN0143.JPG"
    {
      vr := new OpenVR(hmd);
      showHelp := true;
      imagePath := "DSCN0143.JPG";
    }

    /** keyPressed: 'h' toggles the help, 'm' the mirror window; other keys
        change nothing. */
    method KeyPressed(key: char)
      modifies this`showHelp, vr`mirrorVisible
      ensures showHelp == (if key == 'h' then !old(showHelp) else old(showHelp))
      ensures vr.mirrorVisible == (if key == 'm' then !old(vr.mirrorVisible) else old(vr.mirrorVisible))
    {
      if key == 'h' {
        showHelp := !showHelp;
      } else if key == 'm' {
        vr.ToggleMirrorWindow();
      }
    }

    /** dragEvent: the first dropped file, its backslashes turned into
        slashes, becomes the image; the other files are ignored. */
    method DragEvent(files: seq<string>)
      requires |files| > 0
      modifies this`imagePath
      ensures imagePath == SlashPath(files[0])
      ensures Backslash !in imagePath
    {
      var path := NormalizePath(files[0]);
      SlashPathReplacesOnlyBackslashes(files[0]);
      imagePath := path;
    }
  }

}
