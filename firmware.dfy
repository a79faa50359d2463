/**
 * The file-name rules of the firmware upload in `Clones/19-01-26clone.py`: which
 * names are accepted as firmware images, and the name an upload is stored under.
 */
module Firmware {
  import opened Text

  /** `ALLOWED_EXTENSIONS`. */
  const AllowedExtension: string := "bin"

  /** The index of the last '.' in `s`, if any. */
  function LastDot(s: string): (i: int)
    ensures -1 <= i < |s|
    ensures i >= 0 ==> s[i] == '.'
    ensures forall k :: i < k < |s| ==> s[k] != '.'
  {
    if s == [] then -1
    else if s[|s| - 1] == '.' then |s| - 1
    else LastDot(s[..|s| - 1])
  }

  /** `filename.rsplit('.', 1)[1]`: the text after the last '.'. */
  function Extension(s: string): string
    requires LastDot(s) >= 0
  {
    s[LastDot(s) + 1..]
  }

  /** `filename.rsplit('.', 1)[0]`: the text before the last '.', or all of it when there is none. */
  function BaseName(s: string): string {
    if LastDot(s) >= 0 then s[..LastDot(s)] else s
  }

  /**
   * `allowed_file`: the name contains a '.' and the text after the last '.',
   * lower-cased, is "bin". Equivalently: the name ends in '.' followed by "bin" in
   * any mix of letter cases.
   */
  function AllowedFile(filename: string): (ok: bool)
    ensures ok <==> |filename| >= 4 && filename[|filename| - 4] == '.'
                    && Lower(filename[|filename| - 3..]) == AllowedExtension
  {
    var dot := LastDot(filename);
    if dot < 0 then false
    else
      var ok := Lower(Extension(filename)) == AllowedExtension;
      assert ok ==> |filename| - dot == 4;
      assert |filename| >= 4 && filename[|filename| - 4] == '.' && Lower(filename[|filename| - 3..]) == AllowedExtension
        ==> dot == |filename| - 4;
      ok
  }

  /**
   * The name an accepted upload is saved under: the base name, '_', the upload
   * timestamp, ".bin". It is itself an allowed firmware name; splitting it at its last
   * '.' gives back the extension "bin" and, before it, the base name followed by '_'
   * and the timestamp.
   */
  function StoredName(filename: string, timestamp: string): (name: string)
    ensures AllowedFile(name)
    ensures |name| == |BaseName(filename)| + |timestamp| + 5
    ensures LastDot(name) == |name| - 4
    ensures Extension(name) == AllowedExtension
    ensures BaseName(name) == BaseName(filename) + "_" + timestamp
  {
    var stem := BaseName(filename) + "_" + timestamp;
    LastDotOfBin(stem);
    var name := stem + ".bin";
    assert name[|name| - 3..] == "bin";
    name
  }

  /** The last '.' of a name ending in ".bin" is the one before "bin". */
  lemma LastDotOfBin(stem: string)
    ensures LastDot(stem + ".bin") == |stem|
  {
    var dot, b, bi, bin := stem + ".", stem + ".b", stem + ".bi", stem + ".bin";
    assert LastDot(dot) == |stem|;
    assert b[..|b| - 1] == dot;
    assert LastDot(b) == |stem|;
    assert bi[..|bi| - 1] == b;
    assert LastDot(bi) == |stem|;
    assert bin[..|bin| - 1] == bi;
  }

  /** Upper-case extensions are accepted; a name whose last extension is not "bin" is not. */
  lemma AllowedFileExamples()
    ensures AllowedFile("x.BIN")
    ensures !AllowedFile("x.bin.txt")
    ensures !AllowedFile("bin")
  {
    assert Lower("BIN") == "bin";
    assert Lower("x.bin.txt"[6..])[0] == 't';
  }
}
