/**
 * The failing-test decoration list (src/ctest.ts, DecorationManager): the list is
 * cleared, pushed to or replaced wholesale, and an editor shows the decorations whose
 * file, taken as is when absolute and joined to the build directory otherwise,
 * normalises to the editor's own normalised file name.
 */
module Decorations {
  import opened CatchOutput

  /** Node's `path.isAbsolute` and `path.join`, and the extension's `normalizePath`,
      which the model does not interpret. */
  datatype PathOps = PathOps(
    isAbsolute: string -> bool,
    join: (string, string) -> string,
    normalize: string -> string)

  /** The normalised file a decoration points at. */
  function ResolvedFile(d: Decoration, binaryDir: string, paths: PathOps): string {
    paths.normalize(if paths.isAbsolute(d.fileName) then d.fileName else paths.join(binaryDir, d.fileName))
  }

  /** The decoration belongs in the editor showing `editorFile`. */
  predicate ShowsIn(d: Decoration, editorFile: string, binaryDir: string, paths: PathOps) {
    ResolvedFile(d, binaryDir, paths) == paths.normalize(editorFile)
  }

  /** The decorations an editor shows, in list order. */
  function DecorationsFor(ds: seq<Decoration>, editorFile: string, binaryDir: string, paths: PathOps): seq<Decoration> {
    if ds == [] then []
    else
      var init := DecorationsFor(ds[..|ds| - 1], editorFile, binaryDir, paths);
      if ShowsIn(ds[|ds| - 1], editorFile, binaryDir, paths) then init + [ds[|ds| - 1]] else init
  }

  /** An editor shows a decoration exactly when it is in the list and resolves to the
      editor's file. */
  lemma {:induction false} DecorationsForMembership(ds: seq<Decoration>, editorFile: string, binaryDir: string, paths: PathOps, d: Decoration)
    ensures d in DecorationsFor(ds, editorFile, binaryDir, paths) <==> d in ds && ShowsIn(d, editorFile, binaryDir, paths)
  {
    if ds != [] {
      DecorationsForMembership(ds[..|ds| - 1], editorFile, binaryDir, paths, d);
      assert ds == ds[..|ds| - 1] + [ds[|ds| - 1]];
    }
  }

  /** The decorations shown for two lists one after the other are those shown for the
      first followed by those shown for the second. */
  lemma {:induction false} DecorationsForAppend(a: seq<Decoration>, b: seq<Decoration>, editorFile: string, binaryDir: string, paths: PathOps)
    ensures DecorationsFor(a + b, editorFile, binaryDir, paths) ==
            DecorationsFor(a, editorFile, binaryDir, paths) + DecorationsFor(b, editorFile, binaryDir, paths)
    decreases |b|
  {
    if b == [] {
      assert a + b == a;
    } else {
      var b' := b[..|b| - 1];
      DecorationsForAppend(a, b', editorFile, binaryDir, paths);
      assert (a + b)[..|a + b| - 1] == a + b';
      assert (a + b)[|a + b| - 1] == b[|b| - 1];
    }
  }

  /** An absolute file name is resolved without the build directory, so changing the
      build directory does not move it. */
  lemma AbsoluteIgnoresBinaryDir(d: Decoration, editorFile: string, dir1: string, dir2: string, paths: PathOps)
    requires paths.isAbsolute(d.fileName)
    ensures ShowsIn(d, editorFile, dir1, paths) <==> ShowsIn(d, editorFile, dir2, paths)
  {
  }

  /** Every shown decoration comes from the list and resolves to the editor's file. */
  lemma {:induction false} DecorationsForShown(ds: seq<Decoration>, editorFile: string, binaryDir: string, paths: PathOps)
    ensures var shown := DecorationsFor(ds, editorFile, binaryDir, paths);
            && |shown| <= |ds|
            && forall k :: 0 <= k < |shown| ==> ShowsIn(shown[k], editorFile, binaryDir, paths)
  {
    if ds != [] {
      DecorationsForShown(ds[..|ds| - 1], editorFile, binaryDir, paths);
    }
  }

  class DecorationManager {
    var binaryDir: string
    var failingTestDecorations: seq<Decoration>

    constructor()
      ensures binaryDir == [] && failingTestDecorations == []
    {
      binaryDir := [];
      failingTestDecorations := [];
    }

    /** The `binaryDir` setter; refreshing the active editor is rendering. */
    method SetBinaryDir(v: string)
      modifies this
      ensures binaryDir == v && failingTestDecorations == old(failingTestDecorations)
    {
      binaryDir := v;
    }

    /** clearFailingTestDecorations. */
    method ClearFailingTestDecorations()
      modifies this
      ensures failingTestDecorations == [] && binaryDir == old(binaryDir)
    {
      SetFailingTestDecorations([]);
    }

    /** addFailingTestDecoration: the decoration goes to the end of the list. */
    method AddFailingTestDecoration(d: Decoration)
      modifies this
      ensures failingTestDecorations == old(failingTestDecorations) + [d] && binaryDir == old(binaryDir)
    {
      failingTestDecorations := failingTestDecorations + [d];
    }

    /** The `failingTestDecorations` setter: the list is replaced, not merged. */
    method SetFailingTestDecorations(v: seq<Decoration>)
      modifies this
      ensures failingTestDecorations == v && binaryDir == old(binaryDir)
    {
      failingTestDecorations := v;
    }

    /** The loop of `_refreshEditorDecorations`: the decorations to show in the editor
        whose document is `editorFile`. */
    method EditorDecorations(editorFile: string, paths: PathOps) returns (shown: seq<Decoration>)
      ensures shown == DecorationsFor(failingTestDecorations, editorFile, binaryDir, paths)
    {
      shown := [];
      var editorNormal := paths.normalize(editorFile);
      var i := 0;
      while i < |failingTestDecorations|
        invariant 0 <= i <= |failingTestDecorations|
        invariant shown == DecorationsFor(failingTestDecorations[..i], editorFile, binaryDir, paths)
      {
        var decor := failingTestDecorations[i];
        var decorFile := paths.normalize(if paths.isAbsolute(decor.fileName) then decor.fileName
                                         else paths.join(binaryDir, decor.fileName));
        assert failingTestDecorations[..i + 1][..i] == failingTestDecorations[..i];
        if editorNormal == decorFile {
          shown := shown + [decor];
        }
        i := i + 1;
      }
      assert failingTestDecorations[..i] == failingTestDecorations;
    }
  }
}
