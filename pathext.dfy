/** Node's `path.extname` (POSIX flavour) and `String.prototype.toLowerCase`
    on file names. */
module PathExt {

  /** Index of the last occurrence of `c` in `s`, or -1 when there is none. */
  function LastIndexOf(s: string, c: char): (r: int)
    ensures -1 <= r < |s|
    ensures r >= 0 ==> s[r] == c
    ensures forall j :: r < j < |s| ==> s[j] != c
    decreases |s|
  {
    if |s| == 0 then -1
    else if s[|s| - 1] == c then |s| - 1
    else LastIndexOf(s[..|s| - 1], c)
  }

  /** `s` without its trailing slashes. */
  function StripTrailingSlashes(s: string): (r: string)
    ensures r <= s
    ensures r == [] || r[|r| - 1] != '/'
    ensures forall j :: |r| <= j < |s| ==> s[j] == '/'
    decreases |s|
  {
    if |s| > 0 && s[|s| - 1] == '/' then StripTrailingSlashes(s[..|s| - 1]) else s
  }

  /** The last path component: what follows the last slash once trailing
      slashes are ignored. */
  function LastComponent(path: string): (r: string)
    ensures '/' !in r
    ensures '/' !in path ==> r == path
    ensures var t := StripTrailingSlashes(path);
      |r| <= |t| && t[|t| - |r|..] == r && (|r| < |t| ==> t[|t| - |r| - 1] == '/')
  {
    var t := StripTrailingSlashes(path);
    var k := LastIndexOf(t, '/');
    t[k + 1..]
  }

  /** The extension of one path component: from its last dot to its end,
      or empty when there is no dot, when the last dot is the component's
      first character, or when the component is `..`. */
  function ComponentExt(name: string): (r: string)
    ensures r == "" || (|r| < |name| && r == name[|name| - |r|..])
    ensures r == "" || (r[0] == '.' && forall j :: 0 < j < |r| ==> r[j] != '.')
  {
    var d := LastIndexOf(name, '.');
    if d <= 0 || name == ".." then "" else name[d..]
  }

  /** `path.extname(path)`: the extension of the last path component. */
  function ExtName(path: string): (r: string)
    ensures r == "" || (r[0] == '.' && forall j :: 0 < j < |r| ==> r[j] != '.' && r[j] != '/')
  {
    ComponentExt(LastComponent(path))
  }

  /** On a bare file name (no slash), the extension is empty exactly when no
      dot follows the first character or the name is `..`. */
  lemma BareExtNameEmpty(name: string)
    requires '/' !in name
    ensures ExtName(name) == "" <==>
              (forall j :: 0 < j < |name| ==> name[j] != '.') || name == ".."
  {
    assert LastComponent(name) == name;
    var d := LastIndexOf(name, '.');
    if d > 0 && name != ".." {
      assert ExtName(name) == name[d..];
      assert name[d..][0] == '.';
    }
  }

  /** Otherwise the extension is a proper suffix of the name that starts at
      its last dot. */
  lemma BareExtNameSuffix(name: string)
    requires '/' !in name
    requires ExtName(name) != ""
    ensures |ExtName(name)| < |name|
    ensures name == name[..|name| - |ExtName(name)|] + ExtName(name)
    ensures name[|name| - |ExtName(name)|] == '.'
  {
    assert LastComponent(name) == name;
    var d := LastIndexOf(name, '.');
    var e := ExtName(name);
    assert e == name[d..];
    assert |e| == |name| - d;
    assert name[..d] + name[d..] == name;
  }

  /** ASCII lower-casing of one character. */
  function LowerChar(c: char): char {
    if 'A' <= c <= 'Z' then (c as int - 'A' as int + 'a' as int) as char else c
  }

  /** `toLowerCase()`, character by character. */
  function Lower(s: string): (r: string)
    ensures |r| == |s|
    ensures forall i :: 0 <= i < |s| ==> r[i] == LowerChar(s[i])
    decreases |s|
  {
    if s == [] then [] else [LowerChar(s[0])] + Lower(s[1..])
  }

  /** A bare file name is its own last component. */
  lemma BareExtNameIsComponentExt(name: string)
    requires '/' !in name
    ensures ExtName(name) == ComponentExt(name)
  {
    assert LastComponent(name) == name;
  }

  /** Worked example: an upper-case extension is kept as written. */
  lemma ExtNameUpperCase()
    ensures ExtName("A.PNG") == ".PNG"
  {
    var name := "A.PNG";
    assert name[1] == '.' && name[2] != '.' && name[3] != '.' && name[4] != '.';
    assert LastIndexOf(name, '.') == 1;
    assert name[1..] == ".PNG";
    assert ComponentExt(name) == ".PNG";
    BareExtNameIsComponentExt(name);
  }

  /** Worked example: a dot-file has no extension. */
  lemma ExtNameDotFile()
    ensures ExtName(".png") == ""
  {
    var name := ".png";
    assert name[0] == '.' && name[1] != '.' && name[2] != '.' && name[3] != '.';
    assert LastIndexOf(name, '.') == 0;
    BareExtNameIsComponentExt(name);
  }

  /** Worked example: a name without a dot has no extension. */
  lemma ExtNameNoDot()
    ensures ExtName("noext") == ""
  {
    var name := "noext";
    assert forall j :: 0 <= j < |name| ==> name[j] != '.' && name[j] != '/';
    assert LastIndexOf(name, '.') == -1;
    BareExtNameIsComponentExt(name);
  }

  /** Worked example: lower-casing an extension. */
  lemma LowerUpperCaseExtension()
    ensures Lower(".PNG") == ".png"
  {
    var r := Lower(".PNG");
    assert |r| == 4;
    assert r[0] == LowerChar('.') == '.';
    assert r[1] == LowerChar('P') == 'p';
    assert r[2] == LowerChar('N') == 'n';
    assert r[3] == LowerChar('G') == 'g';
  }
}
