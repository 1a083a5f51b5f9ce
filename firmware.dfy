/** The file-name check applied to firmware uploads. */
module Firmware {
  import opened Text

  /** The only extension accepted for firmware images. */
  const AllowedExtension: string := "bin"

  /** `allowed_file`: the name contains a dot and the text after the last dot,
      lower-cased, is an allowed extension. */
  predicate AllowedFile(filename: string) {
    '.' in filename && Lower(filename[FindLast(filename, '.') + 1..]) == AllowedExtension
  }

  /** An equivalent, positional reading of `allowed_file`: the name ends in a dot
      followed by three characters spelling `bin` in any letter case. */
  lemma AllowedFileIffBinSuffix(filename: string)
    ensures AllowedFile(filename) <==>
      |filename| >= 4 && filename[|filename| - 4] == '.' && Lower(filename[|filename| - 3..]) == AllowedExtension
  {
    var n := |filename|;
    if AllowedFile(filename) {
      var k := FindLast(filename, '.');
      assert |filename[k + 1..]| == 3;
    }
    if n >= 4 && filename[n - 4] == '.' && Lower(filename[n - 3..]) == AllowedExtension {
      var k := FindLast(filename, '.');
      assert filename[n - 4 + 1..] == filename[n - 3..];
      forall j | n - 3 <= j < n
        ensures filename[j] != '.'
      {
        assert Lower(filename[n - 3..])[j - (n - 3)] == LowerChar(filename[j]);
      }
      assert k == n - 4;
    }
  }
}
