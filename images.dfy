/** The image bookkeeping of the NEB image generator
    (Utils/NEB/image_creator-v-0.4.py): the list of images handed to the
    interpolator, the `.xyz` file written for each image and the animation
    file that repeats them all.  An image is the atoms of one structure, each
    with its element symbol and its coordinate text; the interpolation itself is
    a parameter of the pipeline. */
module Images {
  import opened Wrappers
  import opened Text
  import opened Fdf

  /** One structure: its atoms in order. */
  type Image = seq<Atom>

  /** `[initial] + [initial.copy() for _ in range(count)] + [final]`. */
  function ImageList(initial: Image, final: Image, count: int): (r: seq<Image>)
    ensures |r| == Max0(count) + 2
    ensures r[0] == initial && r[|r| - 1] == final
    ensures forall k :: 0 < k < |r| - 1 ==> r[k] == initial
  {
    [initial] + seq(Max0(count), _ => initial) + [final]
  }

  /** The append loop of lines 151-156. */
  method BuildImages(initial: Image, final: Image, count: int) returns (images: seq<Image>)
    ensures images == ImageList(initial, final, count)
  {
    images := [initial];
    var i := 0;
    while i < count
      invariant 0 <= i <= Max0(count)
      invariant images == [initial] + seq(i, _ => initial)
    {
      images := images + [initial];
      i := i + 1;
    }
    images := images + [final];
  }

  /** The line of one atom: its symbol and its coordinates, separated by tabs. */
  function AtomLine(a: Atom): string
  {
    a.symbol + "\t" + Join('\t', a.coords)
  }

  /** An atom line splits back into the symbol and the coordinates when each
      of them is one non-blank token. */
  lemma AtomLineTokens(a: Atom)
    requires a.symbol != [] && NoSpace(a.symbol) && a.coords != []
    requires forall k :: 0 <= k < |a.coords| ==> a.coords[k] != [] && NoSpace(a.coords[k])
    ensures Split(AtomLine(a)) == [a.symbol] + a.coords
  {
    var ws := [a.symbol] + a.coords;
    assert ws[1..] == a.coords;
    assert AtomLine(a) == Join('\t', ws);
    SplitJoin('\t', ws);
  }

  /** The lines `f1` receives for image `i`, as far as the atoms of the
      image reach. */
  function ImageLines(numAtoms: int, i: nat, image: Image): seq<string>
    requires numAtoms <= |image|
  {
    [IntToString(numAtoms), "Image_" + NatToString(i)] + AtomLines(image[..Max0(numAtoms)])
  }

  function AtomLines(atoms: seq<Atom>): (r: seq<string>)
    ensures |r| == |atoms|
    ensures forall n :: 0 <= n < |atoms| ==> r[n] == AtomLine(atoms[n])
  {
    seq(|atoms|, n requires 0 <= n < |atoms| => AtomLine(atoms[n]))
  }

  /** One image block: the atom count, which reads back as that count, the
      label `Image_<i>`, and one line per atom of the first `numAtoms`, in
      order. */
  lemma ImageLinesShape(numAtoms: int, i: nat, image: Image)
    requires numAtoms <= |image|
    ensures var ls := ImageLines(numAtoms, i, image);
      |ls| == 2 + Max0(numAtoms) &&
      ParseInt(ls[0]) == Some(numAtoms) &&
      ls[1] == "Image_" + NatToString(i) &&
      forall n :: 0 <= n < Max0(numAtoms) ==> ls[2 + n] == AtomLine(image[n])
  {
    ParseIntRoundTrip(numAtoms);
  }

  /** Text made of lines, each one ended by a newline. */
  function Unlines(ls: seq<string>): string
    decreases |ls|
  {
    if ls == [] then "" else Unlines(ls[..|ls| - 1]) + ls[|ls| - 1] + "\n"
  }

  lemma {:induction false} UnlinesAppend(a: seq<string>, b: seq<string>)
    ensures Unlines(a + b) == Unlines(a) + Unlines(b)
    decreases |b|
  {
    if b == [] {
      assert a + b == a;
    } else {
      var b' := b[..|b| - 1];
      assert (a + b)[..|a + b| - 1] == a + b';
      UnlinesAppend(a, b');
    }
  }

  datatype WriteError =
    | AtomIndexOutOfRange(image: nat, atom: nat)  // IndexError of `get_chemical_symbols()[n]`

  /** What image `i` writes, or the IndexError when it has fewer atoms than
      the count read from the initial file. */
  function ImageText(numAtoms: int, i: nat, image: Image): Result<string, WriteError>
  {
    if |image| < numAtoms then Err(AtomIndexOutOfRange(i, |image|))
    else Ok(Unlines(ImageLines(numAtoms, i, image)))
  }

  /** Writing the line of atom `n` extends the text by that line. */
  lemma AtomLinesStep(head: seq<string>, image: Image, n: nat)
    requires n < |image|
    ensures Unlines(head + AtomLines(image[..n + 1])) == Unlines(head + AtomLines(image[..n])) + AtomLine(image[n]) + "\n"
  {
    assert (head + AtomLines(image[..n + 1]))[..|head| + n] == head + AtomLines(image[..n]);
  }

  /** The writes to `f1` for image `i`, line by line. */
  method WriteImage(numAtoms: int, i: nat, image: Image) returns (r: Result<string, WriteError>)
    ensures r == ImageText(numAtoms, i, image)
  {
    var head := [IntToString(numAtoms), "Image_" + NatToString(i)];
    var text := IntToString(numAtoms) + "\n";
    assert text == Unlines(head[..1]);
    text := text + "Image_" + NatToString(i) + "\n";
    assert head[..2] == head;
    var n := 0;
    while n < numAtoms
      invariant 0 <= n <= Max0(numAtoms) && n <= |image|
      invariant text == Unlines(head + AtomLines(image[..n]))
    {
      if n >= |image| {
        return Err(AtomIndexOutOfRange(i, n));
      }
      AtomLinesStep(head, image, n);
      text := text + AtomLine(image[n]) + "\n";
      n := n + 1;
    }
    return Ok(text);
  }

  function ImageFileName(m: string, i: nat): string
  {
    "images_" + m + NatToString(i) + ".xyz"
  }

  function AnimationFileName(m: string): string
  {
    "images_" + m + "_Animation.xyz"
  }

  /** No two images share a file, and none is written to the animation file,
      so no file overwrites another. */
  lemma FileNamesDistinct(m: string, i: nat, j: nat)
    ensures ImageFileName(m, i) == ImageFileName(m, j) <==> i == j
    ensures ImageFileName(m, i) != AnimationFileName(m)
  {
    var a, b := ImageFileName(m, i), ImageFileName(m, j);
    var p := "images_" + m;
    if a == b {
      var di, dj := NatToString(i), NatToString(j);
      assert a == p + di + ".xyz" && b == p + dj + ".xyz";
      assert a[|p|..|a| - 4] == di;
      assert b[|p|..|b| - 4] == dj;
      NatToStringInjective(i, j);
    }
    assert a[|p|] == NatToString(i)[0];
    assert AnimationFileName(m)[|p|] == '_';
  }

  datatype OutFile = OutFile(name: string, text: string)

  /** Every image file in index order, and the animation file. */
  datatype Trajectory = Trajectory(files: seq<OutFile>, animation: OutFile)

  /** The texts of `files`, one after the other. */
  function Concat(files: seq<OutFile>): string
    decreases |files|
  {
    if files == [] then "" else Concat(files[..|files| - 1]) + files[|files| - 1].text
  }

  /** What the writer loop of lines 171-191 produces: for each image in turn,
      its file, whose text is also appended to the animation; the first image
      that raises ends it. */
  function WriteAll(m: string, numAtoms: int, images: seq<Image>): Result<Trajectory, WriteError>
    decreases |images|
  {
    if images == [] then Ok(Trajectory([], OutFile(AnimationFileName(m), "")))
    else
      var k := |images| - 1;
      match WriteAll(m, numAtoms, images[..k])
      case Err(e) => Err(e)
      case Ok(t) =>
        match ImageText(numAtoms, k, images[k])
        case Err(e) => Err(e)
        case Ok(text) =>
          Ok(Trajectory(t.files + [OutFile(ImageFileName(m, k), text)],
                        OutFile(AnimationFileName(m), t.animation.text + text)))
  }

  /** Image `j` is the first with fewer atoms than the count. */
  ghost predicate FirstShort(numAtoms: int, images: seq<Image>, j: int)
  {
    0 <= j < |images| && |images[j]| < numAtoms &&
    forall k :: 0 <= k < j ==> numAtoms <= |images[k]|
  }

  /** The writer succeeds exactly when every image has at least the atom count
      of the initial file. */
  lemma {:induction false} WriteAllSucceeds(m: string, numAtoms: int, images: seq<Image>)
    ensures WriteAll(m, numAtoms, images).Ok? <==> forall k :: 0 <= k < |images| ==> numAtoms <= |images[k]|
    decreases |images|
  {
    if images != [] {
      var k := |images| - 1;
      WriteAllSucceeds(m, numAtoms, images[..k]);
      assert forall j :: 0 <= j < k ==> images[..k][j] == images[j];
    }
  }

  /** A successful write makes one file per image, in order, named by its
      index and holding its block. */
  lemma {:induction false} WriteAllFiles(m: string, numAtoms: int, images: seq<Image>)
    requires WriteAll(m, numAtoms, images).Ok?
    ensures var t := WriteAll(m, numAtoms, images).value;
      |t.files| == |images| &&
      forall k :: 0 <= k < |images| ==>
        numAtoms <= |images[k]| &&
        t.files[k] == OutFile(ImageFileName(m, k), Unlines(ImageLines(numAtoms, k, images[k])))
    decreases |images|
  {
    if images != [] {
      var k := |images| - 1;
      var pre := images[..k];
      WriteAllFiles(m, numAtoms, pre);
      assert forall j :: 0 <= j < k ==> pre[j] == images[j];
    }
  }

  /** The animation file holds the texts of all the image files, in order. */
  lemma {:induction false} WriteAllAnimation(m: string, numAtoms: int, images: seq<Image>)
    requires WriteAll(m, numAtoms, images).Ok?
    ensures var t := WriteAll(m, numAtoms, images).value;
      t.animation == OutFile(AnimationFileName(m), Concat(t.files))
    decreases |images|
  {
    if images != [] {
      var k := |images| - 1;
      WriteAllAnimation(m, numAtoms, images[..k]);
      var t := WriteAll(m, numAtoms, images).value;
      assert t.files[..|t.files| - 1] == WriteAll(m, numAtoms, images[..k]).value.files;
    }
  }

  /** A failed write names the first image with too few atoms and the index
      at which it ran out. */
  lemma {:induction false} WriteAllFails(m: string, numAtoms: int, images: seq<Image>)
    requires WriteAll(m, numAtoms, images).Err?
    ensures exists j :: FirstShort(numAtoms, images, j) &&
                        WriteAll(m, numAtoms, images).error == AtomIndexOutOfRange(j, |images[j]|)
    decreases |images|
  {
    var k := |images| - 1;
    var pre := images[..k];
    assert forall j :: 0 <= j < k ==> pre[j] == images[j];
    if WriteAll(m, numAtoms, pre).Ok? {
      WriteAllSucceeds(m, numAtoms, pre);
      assert FirstShort(numAtoms, images, k);
    } else {
      WriteAllFails(m, numAtoms, pre);
      var j :| FirstShort(numAtoms, pre, j) && WriteAll(m, numAtoms, pre).error == AtomIndexOutOfRange(j, |pre[j]|);
      assert FirstShort(numAtoms, images, j);
    }
  }

  /** The writer loop: each image file is written, then read back and
      appended to the animation file. */
  method WriteImages(m: string, numAtoms: int, images: seq<Image>) returns (r: Result<Trajectory, WriteError>)
    ensures r == WriteAll(m, numAtoms, images)
  {
    var files: seq<OutFile> := [];
    var animation := "";
    for i := 0 to |images|
      invariant WriteAll(m, numAtoms, images[..i]) == Ok(Trajectory(files, OutFile(AnimationFileName(m), animation)))
    {
      assert images[..i + 1][..i] == images[..i];
      var text := WriteImage(numAtoms, i, images[i]);
      if text.Err? {
        r := Err(text.error);
        WriteAllErrorSticks(m, numAtoms, images, i + 1, text.error);
        return;
      }
      files := files + [OutFile(ImageFileName(m, i), text.value)];
      animation := animation + text.value;
    }
    assert images[..|images|] == images;
    r := Ok(Trajectory(files, OutFile(AnimationFileName(m), animation)));
  }

  /** Once an image has raised, the later images change nothing. */
  lemma {:induction false} WriteAllErrorSticks(m: string, numAtoms: int, images: seq<Image>, i: nat, e: WriteError)
    requires i <= |images|
    requires WriteAll(m, numAtoms, images[..i]) == Err(e)
    ensures WriteAll(m, numAtoms, images) == Err(e)
    decreases |images| - i
  {
    if i < |images| {
      assert images[..i + 1][..i] == images[..i];
      WriteAllErrorSticks(m, numAtoms, images, i + 1, e);
    } else {
      assert images[..i] == images;
    }
  }

  datatype NebError =
    | InitialFile(fdf: FdfError)
    | FinalFile(fdf: FdfError)
    | Writing(write: WriteError)

  /** The script from reading the two structure files to writing the images:
      the initial file is read first, then the final one; the image list is
      interpolated by `interpolate` (the NEB library), and every image is
      written with the atom count of the initial file. */
  function CreateImages(initialLines: seq<string>, finalLines: seq<string>, count: int, m: string,
                        interpolate: seq<Image> -> seq<Image>): Result<Trajectory, NebError>
  {
    match ParseFdf(initialLines)
    case Err(e) => Err(InitialFile(e))
    case Ok(i) =>
      match ParseFdf(finalLines)
      case Err(e) => Err(FinalFile(e))
      case Ok(f) =>
        match WriteAll(m, i.numAtoms, interpolate(ImageList(i.atoms, f.atoms, count)))
        case Err(e) => Err(Writing(e))
        case Ok(t) => Ok(t)
  }

  /** The script as it runs, one step after the other. */
  method RunImageCreator(initialLines: seq<string>, finalLines: seq<string>, count: int, m: string,
                         interpolate: seq<Image> -> seq<Image>) returns (r: Result<Trajectory, NebError>)
    ensures r == CreateImages(initialLines, finalLines, count, m, interpolate)
  {
    var i := GetInfoFromFdf(initialLines);
    if i.Err? {
      return Err(InitialFile(i.error));
    }
    var f := GetInfoFromFdf(finalLines);
    if f.Err? {
      return Err(FinalFile(f.error));
    }
    var images := BuildImages(i.value.atoms, f.value.atoms, count);
    images := interpolate(images);
    var t := WriteImages(m, i.value.numAtoms, images);
    if t.Err? {
      return Err(Writing(t.error));
    }
    r := Ok(t.value);
  }
}
