/**
 * Which paths the adapters hand to the engine: `Path.GetExtension(path)
 * .ToLower()` must be `.efk` or `.efkefc`.
 */
module EffectPath {

  predicate Separator(c: char)
  {
    c == '/' || c == '\\'
  }

  /**
   * `Path.GetExtension` with Windows separators: from the last `.` of the
   * file name to the end, or empty when the name has no `.` or ends in one.
   */
  function Extension(path: string): (ext: string)
    ensures ext == "" || (2 <= |ext| <= |path| && ext[0] == '.' && path[|path| - |ext|..] == ext)
    ensures forall k :: 1 <= k < |ext| ==> ext[k] != '.' && !Separator(ext[k])
  {
    ExtensionBefore(path, |path|)
  }

  /** The scan of `Extension` from index `i - 1` back to the start. */
  function ExtensionBefore(path: string, i: nat): (ext: string)
    requires i <= |path|
    requires forall k :: i <= k < |path| ==> path[k] != '.' && !Separator(path[k])
    ensures ext == "" || (2 <= |ext| <= |path| && ext[0] == '.' && path[|path| - |ext|..] == ext)
    ensures forall k :: 1 <= k < |ext| ==> ext[k] != '.' && !Separator(ext[k])
    decreases i
  {
    if i == 0 then ""
    else if path[i - 1] == '.' then (if i == |path| then "" else path[i - 1..])
    else if Separator(path[i - 1]) then ""
    else ExtensionBefore(path, i - 1)
  }

  /** `ToLower` on the ASCII letters; other characters are left as they are. */
  function Lower(s: string): (r: string)
    ensures |r| == |s|
    ensures forall k :: 0 <= k < |s| ==> r[k] == if 'A' <= s[k] <= 'Z' then (s[k] as int + 32) as char else s[k]
  {
    seq(|s|, k requires 0 <= k < |s| => if 'A' <= s[k] <= 'Z' then (s[k] as int + 32) as char else s[k])
  }

  /** Whether the adapters treat `path` as an effect file: it ends in `.efk` or `.efkefc`, in any case. */
  predicate IsEffectFile(path: string)
    ensures IsEffectFile(path) ==>
      || (|path| >= 4 && Lower(path[|path| - 4..]) == ".efk")
      || (|path| >= 7 && Lower(path[|path| - 7..]) == ".efkefc")
  {
    var ext := Lower(Extension(path));
    ext == ".efk" || ext == ".efkefc"
  }

  /** The converse too: every path ending in `.efk` or `.efkefc`, in any case, is an effect file. */
  lemma EffectFileBySuffix(path: string)
    ensures IsEffectFile(path) <==>
      || (|path| >= 4 && Lower(path[|path| - 4..]) == ".efk")
      || (|path| >= 7 && Lower(path[|path| - 7..]) == ".efkefc")
  {
    if |path| >= 4 && Lower(path[|path| - 4..]) == ".efk" {
      var lit := ".efk";
      assert lit[1] == 'e' && lit[2] == 'f' && lit[3] == 'k';
      LoweredExtension(path, 4, lit);
    }
    if |path| >= 7 && Lower(path[|path| - 7..]) == ".efkefc" {
      var lit := ".efkefc";
      assert lit[1] == 'e' && lit[2] == 'f' && lit[3] == 'k' && lit[4] == 'e' && lit[5] == 'f' && lit[6] == 'c';
      LoweredExtension(path, 7, lit);
    }
  }

  /** A suffix that lowers to a dot and letters is the path's extension. */
  lemma LoweredExtension(path: string, n: nat, lowered: string)
    requires 2 <= n <= |path| && Lower(path[|path| - n..]) == lowered
    requires lowered[0] == '.' && forall k :: 1 <= k < n ==> 'a' <= lowered[k] <= 'z'
    ensures Extension(path) == path[|path| - n..]
  {
    var stem, ext := path[..|path| - n], path[|path| - n..];
    assert path == stem + ext;
    assert ext[0] == '.';
    ExtensionOfName(stem, ext);
  }

  /** The extension of a file name is what follows its last dot, whatever directories come before. */
  lemma {:induction false} ExtensionOfName(stem: string, ext: string)
    requires 2 <= |ext| && ext[0] == '.'
    requires forall k :: 1 <= k < |ext| ==> ext[k] != '.' && !Separator(ext[k])
    ensures Extension(stem + ext) == ext
  {
    var path := stem + ext;
    ExtensionScan(path, ext, |path|);
  }

  lemma {:induction false} ExtensionScan(path: string, ext: string, i: nat)
    requires 2 <= |ext| <= |path| && ext[0] == '.' && path[|path| - |ext|..] == ext
    requires forall k :: 1 <= k < |ext| ==> ext[k] != '.' && !Separator(ext[k])
    requires |path| - |ext| < i <= |path|
    ensures ExtensionBefore(path, i) == ext
    decreases i
  {
    var j := |path| - |ext|;
    if i - 1 == j {
      assert path[i - 1] == ext[0];
    } else {
      assert path[i - 1] == ext[i - 1 - j];
      ExtensionScan(path, ext, i - 1);
    }
  }

  /** Upper-case extensions are accepted too: `LASER.EFKEFC` is an effect file. */
  lemma EffectFilesAnyCase(stem: string)
    ensures IsEffectFile(stem + ".efk") && IsEffectFile(stem + ".EFK")
    ensures IsEffectFile(stem + ".efkefc") && IsEffectFile(stem + ".EfkEfc")
  {
    ExtensionOfName(stem, ".efk");
    ExtensionOfName(stem, ".EFK");
    ExtensionOfName(stem, ".efkefc");
    ExtensionOfName(stem, ".EfkEfc");
    assert Lower(".efk") == ".efk" && Lower(".EFK") == ".efk";
    assert Lower(".efkefc") == ".efkefc" && Lower(".EfkEfc") == ".efkefc";
  }

  /** Only the last extension counts: a backup copy `x.efk.bak` is not an effect file, nor is a sound. */
  lemma OtherFilesRefused(stem: string)
    ensures !IsEffectFile(stem + ".wav") && !IsEffectFile(stem + ".efk.bak")
  {
    ExtensionOfName(stem, ".wav");
    ExtensionOfName(stem + ".efk", ".bak");
    assert stem + ".efk.bak" == stem + ".efk" + ".bak";
    assert Lower(".wav")[1] == 'w' && Lower(".bak")[1] == 'b';
  }
}
