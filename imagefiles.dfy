/** The `/api/images` and `/api/images/:filename` handlers: which directory
    entries count as images, and the `type` reported for a file.  The
    directory listing and the file stats are inputs. */
module ImageFiles {
  import opened Values
  import opened Http
  import opened PathExt

  /** The extensions the listing accepts, already lower-case. */
  const ImageExtensions: seq<string> := [".jpg", ".jpeg", ".png", ".gif", ".webp", ".svg"]

  /** The `type` values an image file can report. */
  const ImageTypes: seq<string> := ["jpg", "jpeg", "png", "gif", "webp", "svg"]

  /** A file is listed when its lower-cased extension is an image extension. */
  predicate IsImageFile(file: string): (r: bool)
    ensures ExtName(file) == "" ==> !r
    ensures r ==> 4 <= |ExtName(file)| <= 5 && ExtName(file)[0] == '.'
  {
    var e := Lower(ExtName(file));
    ImageExtensionShape(e);
    e in ImageExtensions
  }

  /** Every image extension is a dot followed by three or four letters,
      and what follows the dot is an image type. */
  lemma ImageExtensionShape(e: string)
    ensures e in ImageExtensions ==> 4 <= |e| <= 5 && e[0] == '.' && e[1..] in ImageTypes
  {
    if e in ImageExtensions {
      assert e == ".jpg" || e == ".jpeg" || e == ".png" || e == ".gif" || e == ".webp" || e == ".svg";
    }
  }

  /** `xs.filter(keep)`: the elements that `keep` accepts, in their order. */
  function Filter<T(!new)>(xs: seq<T>, keep: T -> bool): (r: seq<T>)
    ensures |r| <= |xs|
    ensures forall x :: x in r <==> x in xs && keep(x)
    decreases |xs|
  {
    if xs == [] then []
    else (if keep(xs[0]) then [xs[0]] else []) + Filter(xs[1..], keep)
  }

  /** `r` occurs in `s` in order, possibly with gaps. */
  predicate IsSubsequence<T(==)>(r: seq<T>, s: seq<T>)
    decreases |s|
  {
    r == [] ||
    (s != [] && ((r[0] == s[0] && IsSubsequence(r[1..], s[1..])) || IsSubsequence(r, s[1..])))
  }

  /** The filter keeps the elements in their original order. */
  lemma {:induction false} FilterIsSubsequence<T(!new)>(xs: seq<T>, keep: T -> bool)
    ensures IsSubsequence(Filter(xs, keep), xs)
    decreases |xs|
  {
    if xs != [] {
      FilterIsSubsequence(xs[1..], keep);
      var rest := Filter(xs[1..], keep);
      if keep(xs[0]) {
        var r := [xs[0]] + rest;
        assert Filter(xs, keep) == r;
        assert r[0] == xs[0] && r[1..] == rest;
      } else {
        assert Filter(xs, keep) == rest;
      }
    }
  }

  /** Every accepted element is kept as many times as it occurs, and nothing else. */
  lemma {:induction false} FilterCounts<T(!new)>(xs: seq<T>, keep: T -> bool, x: T)
    ensures multiset(Filter(xs, keep))[x] == if keep(x) then multiset(xs)[x] else 0
    decreases |xs|
  {
    if xs != [] {
      FilterCounts(xs[1..], keep, x);
      assert xs == [xs[0]] + xs[1..];
    }
  }

  /** The image files of a directory listing: exactly the entries whose
      lower-cased extension is an image extension. */
  function FilterImages(files: seq<string>): (r: seq<string>)
    ensures forall f :: f in r <==> f in files && IsImageFile(f)
  {
    Filter(files, IsImageFile)
  }

  /** The listing keeps each image file as often as it occurs, drops every
      other file, and keeps the directory order. */
  lemma FilterImagesCountsAndOrder(files: seq<string>, f: string)
    ensures multiset(FilterImages(files))[f] == if IsImageFile(f) then multiset(files)[f] else 0
    ensures IsSubsequence(FilterImages(files), files)
  {
    FilterCounts(files, IsImageFile, f);
    FilterIsSubsequence(files, IsImageFile);
  }

  /** An upper-case image extension is accepted. */
  lemma UpperCaseIsImageFile()
    ensures IsImageFile("A.PNG")
  {
    ExtNameUpperCase();
    LowerUpperCaseExtension();
    assert ".png" in ImageExtensions;
  }

  /** A file without an extension is never an image file. */
  lemma NoExtensionIsNotImageFile(file: string)
    requires ExtName(file) == ""
    ensures !IsImageFile(file)
  {
    assert Lower("") == "";
  }

  /** A dot-file named like an extension is not an image file. */
  lemma DotFileIsNotImageFile()
    ensures !IsImageFile(".png")
  {
    ExtNameDotFile();
    NoExtensionIsNotImageFile(".png");
  }

  /** A name without a dot is not an image file. */
  lemma NoDotIsNotImageFile()
    ensures !IsImageFile("noext")
  {
    ExtNameNoDot();
    NoExtensionIsNotImageFile("noext");
  }

  /** Worked example: the case of the extension does not matter, while a
      dot-file and a name without extension are dropped. */
  lemma FilterImagesExample()
    ensures FilterImages(["A.PNG", ".png", "noext"]) == ["A.PNG"]
  {
    UpperCaseIsImageFile();
    DotFileIsNotImageFile();
    NoDotIsNotImageFile();
    FilterKeepsFirstOfThree("A.PNG", ".png", "noext", IsImageFile);
  }

  lemma FilterKeepsFirstOfThree<T(!new)>(a: T, b: T, c: T, keep: T -> bool)
    requires keep(a) && !keep(b) && !keep(c)
    ensures Filter([a, b, c], keep) == [a]
  {
    assert [c][1..] == [];
    assert Filter([c], keep) == [];
    assert [b, c][1..] == [c];
    assert Filter([b, c], keep) == [];
    assert [a, b, c][1..] == [b, c];
  }

  /** The `type` field of `/api/images/:filename`: the lower-cased
      extension without its dot (empty when there is no extension). */
  function TypeOf(filename: string): (r: string)
    ensures ExtName(filename) == "" ==> r == ""
    ensures ExtName(filename) != "" ==> "." + r == Lower(ExtName(filename))
    ensures forall i :: 0 <= i < |r| ==> r[i] != '.' && !('A' <= r[i] <= 'Z')
  {
    var x := ExtName(filename);
    var e := Lower(x);
    LowerKeepsDots(x);
    if e == "" then "" else e[1..]
  }

  /** Lower-casing neither adds nor removes dots and leaves no upper-case letter. */
  lemma LowerKeepsDots(x: string)
    ensures forall i :: 0 <= i < |x| ==> (Lower(x)[i] == '.' <==> x[i] == '.')
    ensures forall i :: 0 <= i < |x| ==> !('A' <= Lower(x)[i] <= 'Z')
  {
  }

  /** Every listed image reports one of the six image types. */
  lemma ImageTypeOfImageFile(file: string)
    requires IsImageFile(file)
    ensures TypeOf(file) in ImageTypes
  {
    ImageExtensionShape(Lower(ExtName(file)));
  }

  /** What `fs.stat` reports about a file; both values are taken as given. */
  datatype FileStats = FileStats(size: nat, lastModified: string)

  /** One entry of the `/api/images` listing. */
  datatype ImageEntry =
    | Described(filename: string, size: nat, lastModified: string)
    | Undescribed(filename: string)  // sent with error 'Could not get file stats'

  /** The `/api/images` handler.  `dir` is what `fs.readdir` returned (`None`
      when it failed) and `stats` holds the files `fs.statSync` can stat. */
  function ListImages(dir: Option<seq<string>>, stats: map<string, FileStats>)
    : (r: Response<seq<ImageEntry>>)
    ensures dir.None? <==> r.ServerError?
    ensures dir.None? ==> r.Status() == 500
    ensures dir.Some? ==> r.Ok? && r.code == 200 && |r.body| == |FilterImages(dir.value)|
    ensures dir.Some? ==> forall i :: 0 <= i < |r.body| ==>
              var file := FilterImages(dir.value)[i];
              r.body[i].filename == file &&
              (r.body[i].Described? <==> file in stats) &&
              (file in stats ==> r.body[i] == Described(file, stats[file].size, stats[file].lastModified))
  {
    match dir
    case None => ServerError("Failed to read images directory")
    case Some(files) =>
      var images := FilterImages(files);
      Ok(200, seq(|images|, i requires 0 <= i < |images| =>
        if images[i] in stats
        then Described(images[i], stats[images[i]].size, stats[images[i]].lastModified)
        else Undescribed(images[i])))
  }

  /** The body of `/api/images/:filename`. */
  datatype ImageInfo = ImageInfo(filename: string, size: nat, lastModified: string, fileType: string)

  /** The `/api/images/:filename` handler.  `stat` is what `fs.stat` returned
      (`None` when it failed). */
  function DescribeImage(filename: string, stat: Option<FileStats>): (r: Response<ImageInfo>)
    ensures stat.None? <==> r.NotFound?
    ensures stat.None? ==> r.Status() == 404
    ensures stat.Some? ==> r == Ok(200, ImageInfo(filename, stat.value.size, stat.value.lastModified, TypeOf(filename)))
  {
    match stat
    case None => NotFound("Image not found")
    case Some(st) => Ok(200, ImageInfo(filename, st.size, st.lastModified, TypeOf(filename)))
  }
}
