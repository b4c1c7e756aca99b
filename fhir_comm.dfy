/**
 * The file-name rule of FHIRComm.printBundleAsXmlToFile: a bundle labelled
 * "0" goes to "<dir>bundle.xml", any other label to "<dir>bundle<label>.xml";
 * the directory is prefixed as given, without a separator.
 */
module FHIRComm {

  function BundleFilePath(dir: string, number: string): (path: string)
    ensures |path| >= |dir| + 10
    ensures path[..|dir|] == dir && path[|dir|..|dir| + 6] == "bundle"
    ensures path[|path| - 4..] == ".xml"
  {
    if number != "0" then dir + "bundle" + number + ".xml" else dir + "bundle.xml"
  }

  /** The label part of a file path of the form "<dir>bundle<label>.xml". */
  function NumberOfPath(dir: string, path: string): string
    requires |path| >= |dir| + 10
  {
    path[|dir| + 6..|path| - 4]
  }

  /** The label can be read back from the path of every label other than "0". */
  lemma PathRoundTrip(dir: string, number: string)
    requires number != "0"
    ensures |BundleFilePath(dir, number)| == |dir| + |number| + 10
    ensures NumberOfPath(dir, BundleFilePath(dir, number)) == number
  {
    var path := BundleFilePath(dir, number);
    assert path == dir + "bundle" + number + ".xml";
    assert path[|dir| + 6..|path| - 4] == number;
  }

  /** Distinct labels other than "0" are written to distinct files. */
  lemma PathsDistinct(dir: string, a: string, b: string)
    requires a != "0" && b != "0" && a != b
    ensures BundleFilePath(dir, a) != BundleFilePath(dir, b)
  {
    PathRoundTrip(dir, a);
    PathRoundTrip(dir, b);
  }

  /** The "0" sentinel shares its file with the empty label. */
  lemma ZeroSharesFileWithEmpty(dir: string)
    ensures BundleFilePath(dir, "0") == BundleFilePath(dir, "") == dir + "bundle.xml"
  {
  }
}
