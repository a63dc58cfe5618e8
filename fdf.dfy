/** The structure-file reader of the NEB image generator: `getInfoFromFdf` in
    Utils/NEB/image_creator-v-0.4.py.  A file is a sequence of lines; each line
    loses everything from its first `#`, is matched case-insensitively against a
    prioritised chain of keywords, and, while one of two block flags is set, is
    taken as a row of the species table or of the coordinate list.  Coordinates
    stay opaque tokens.  Every way the Python code can raise is an `FdfError`. */
module Fdf {
  import opened Wrappers
  import opened Text

  /** A row of the ChemicalSpeciesLabel block: atomic number and element symbol. */
  datatype Species = Species(atomicNumber: int, symbol: string)

  /** A row of the AtomicCoordinatesAndAtomicSpecies block: the coordinate
      tokens and the 1-based index into the species table. */
  datatype CoordRow = CoordRow(coords: seq<string>, species: int)

  /** A coordinate row whose species index has been replaced by the symbol. */
  datatype Atom = Atom(coords: seq<string>, symbol: string)

  /** What `getInfoFromFdf` returns: label, species count, atom count, species
      table and resolved atoms. */
  datatype FdfInfo = FdfInfo(systemLabel: string, numSpecies: int, numAtoms: int,
                             species: seq<Species>, atoms: seq<Atom>)

  datatype FdfError =
    | MissingToken(line: nat)               // IndexError on a row with too few tokens
    | NotAnInteger(line: nat, token: string) // ValueError from int()
    | MissingKeyword(keyword: string)       // UnboundLocalError after the loop
    | NoCoordinates                         // IndexError of numpy on an empty coordinate array
    | SpeciesOutOfRange(index: int)         // IndexError in chemSpec[specNum-1]

  /** Which branch of the keyword chain a line takes. */
  datatype LineKind =
    | LabelLine | SpeciesCountLine | AtomCountLine | SpeciesMarker
    | SpeciesRow | CoordsMarker | CoordRowLine | Ignored

  /** `line.split("#")[0]` */
  function StripComment(line: string): string
  {
    BeforeFirst(line, '#')
  }

  /** The whitespace-separated tokens of the uncommented part of a line. */
  function Tokens(line: string): seq<string>
  {
    Split(StripComment(line))
  }

  function LastToken(toks: seq<string>): string
    requires toks != []
  {
    toks[|toks| - 1]
  }

  /** Which of the five keywords the lowered, uncommented text of a line holds. */
  datatype Keys = Keys(systemLabel: bool, numberOfSpecies: bool, numberOfAtoms: bool,
                       speciesBlock: bool, coordsBlock: bool)

  const NO_KEYS := Keys(false, false, false, false, false)

  function KeysOf(line: string): Keys
  {
    var lc := Lower(StripComment(line));
    Keys(Contains(lc, "systemlabel"), Contains(lc, "numberofspecies"), Contains(lc, "numberofatoms"),
         Contains(lc, "chemicalspecieslabel"), Contains(lc, "atomiccoordinatesandatomicspecies"))
  }

  /** What the loop reads off one line: its keywords and its tokens. */
  datatype LineInfo = LineInfo(keys: Keys, toks: seq<string>)

  /** A line holding one of the three value keywords has a last token. */
  predicate Coherent(info: LineInfo)
  {
    info.keys.systemLabel || info.keys.numberOfSpecies || info.keys.numberOfAtoms ==> info.toks != []
  }

  type Line = info: LineInfo | Coherent(info) witness LineInfo(NO_KEYS, [])

  /** One line of the file as the loop sees it. */
  function Read(line: string): (r: Line)
    ensures r.keys == KeysOf(line) && r.toks == Tokens(line)
  {
    var info := LineInfo(KeysOf(line), Tokens(line));
    ValueLineHasTokens(line);
    info
  }

  /** The three keyword lines whose last token is read always have one: the
      keyword itself is a run of non-blank characters. */
  lemma ValueLineHasTokens(line: string)
    ensures Coherent(LineInfo(KeysOf(line), Tokens(line)))
  {
    var lc := Lower(StripComment(line));
    var keys := KeysOf(line);
    if keys.systemLabel || keys.numberOfSpecies || keys.numberOfAtoms {
      var key := if keys.systemLabel then "systemlabel"
                 else if keys.numberOfSpecies then "numberofspecies"
                 else "numberofatoms";
      ValueKeysAreWords();
      ContainsWord(lc, key);
      LowerKeepsSpaces(StripComment(line));
    }
  }

  /** A line is read as its part before the first `#`. */
  lemma ReadIgnoresComment(line: string)
    ensures Read(line) == Read(StripComment(line))
  {
    var p := StripComment(line);
    BeforeFirstOf(p, '#', "");
  }

  /** Keyword detection ignores case: a keyword written in any mix of upper
      and lower case before the first `#` sets its flag. */
  lemma KeywordAnyCase(line: string, w: string)
    requires Contains(StripComment(line), w)
    ensures Lower(w) == "systemlabel" ==> Read(line).keys.systemLabel
    ensures Lower(w) == "numberofspecies" ==> Read(line).keys.numberOfSpecies
    ensures Lower(w) == "numberofatoms" ==> Read(line).keys.numberOfAtoms
    ensures Lower(w) == "chemicalspecieslabel" ==> Read(line).keys.speciesBlock
    ensures Lower(w) == "atomiccoordinatesandatomicspecies" ==> Read(line).keys.coordsBlock
  {
    ContainsLower(StripComment(line), w);
  }

  /** The keyword lines of a real file: `SystemLabel` in its usual spelling
      is recognised. */
  lemma SystemLabelLine(line: string)
    requires '#' !in line && Contains(line, "SystemLabel")
    ensures Read(line).keys.systemLabel
  {
    BeforeFirstOf(line, '#', "");
    assert Lower("SystemLabel") == "systemlabel";
    KeywordAnyCase(line, "SystemLabel");
  }

  lemma ValueKeysAreWords()
    ensures NoSpace("systemlabel") && NoSpace("numberofspecies") && NoSpace("numberofatoms")
  {
  }

  /** Every line of a file, read. */
  function ReadAll(lines: seq<string>): (r: seq<Line>)
    ensures |r| == |lines|
    ensures forall k :: 0 <= k < |lines| ==> r[k] == Read(lines[k])
  {
    seq(|lines|, k requires 0 <= k < |lines| => Read(lines[k]))
  }

  /** The `if`/`elif` chain of the reading loop, for the current values of the
      two block flags. */
  function Classify(keys: Keys, inSpecies: bool, inCoords: bool): (r: LineKind)
    ensures r == Ignored <==> keys == NO_KEYS && !inSpecies && !inCoords
    ensures r == SpeciesRow || r == CoordRowLine ==>
      !keys.systemLabel && !keys.numberOfSpecies && !keys.numberOfAtoms && !keys.speciesBlock
    ensures r == SpeciesRow ==> inSpecies
    ensures r == CoordRowLine ==> inCoords && !inSpecies && !keys.coordsBlock
    ensures r == CoordsMarker ==> keys.coordsBlock && !inSpecies
  {
    if keys.systemLabel then LabelLine
    else if keys.numberOfSpecies then SpeciesCountLine
    else if keys.numberOfAtoms then AtomCountLine
    else if keys.speciesBlock then SpeciesMarker
    else if inSpecies then SpeciesRow
    else if keys.coordsBlock then CoordsMarker
    else if inCoords then CoordRowLine
    else Ignored
  }

  /** `int(splitted[-1])` on a count line. */
  function ParseCount(toks: seq<string>, n: nat): Result<int, FdfError>
    requires toks != []
  {
    match ParseInt(LastToken(toks))
    case None => Err(NotAnInteger(n, LastToken(toks)))
    case Some(v) => Ok(v)
  }

  /** `[int(splitted[1]), splitted[2].split(".")[0]]`, raising in Python's order. */
  function ParseSpeciesRow(toks: seq<string>, n: nat): (r: Result<Species, FdfError>)
    ensures r.Ok? <==> |toks| >= 3 && ParseInt(toks[1]).Some?
    ensures r.Ok? ==> (ParseInt(toks[1]) == Some(r.value.atomicNumber) &&
      r.value.symbol <= toks[2] && '.' !in r.value.symbol &&
      (|r.value.symbol| < |toks[2]| ==> toks[2][|r.value.symbol|] == '.'))
    ensures |toks| < 2 ==> r == Err(MissingToken(n))
    ensures |toks| >= 2 && ParseInt(toks[1]).None? ==> r == Err(NotAnInteger(n, toks[1]))
    ensures |toks| == 2 && ParseInt(toks[1]).Some? ==> r == Err(MissingToken(n))
  {
    if |toks| < 2 then Err(MissingToken(n))
    else match ParseInt(toks[1])
      case None => Err(NotAnInteger(n, toks[1]))
      case Some(z) =>
        if |toks| < 3 then Err(MissingToken(n))
        else Ok(Species(z, BeforeFirst(toks[2], '.')))
  }

  /** `[splitted[:3], int(splitted[3])]`; the coordinates stay tokens. */
  function ParseCoordRow(toks: seq<string>, n: nat): (r: Result<CoordRow, FdfError>)
    ensures r.Ok? <==> |toks| >= 4 && ParseInt(toks[3]).Some?
    ensures r.Ok? ==> |r.value.coords| == 3 && r.value.coords <= toks && ParseInt(toks[3]) == Some(r.value.species)
    ensures |toks| < 4 ==> r == Err(MissingToken(n))
    ensures |toks| >= 4 && ParseInt(toks[3]).None? ==> r == Err(NotAnInteger(n, toks[3]))
  {
    if |toks| < 4 then Err(MissingToken(n))
    else match ParseInt(toks[3])
      case None => Err(NotAnInteger(n, toks[3]))
      case Some(k) => Ok(CoordRow(toks[..3], k))
  }

  /** The local variables of the reading loop; `None` is a variable not yet bound. */
  datatype ScanState = ScanState(systemLabel: Option<string>, numSpecies: Option<int>, numAtoms: Option<int>,
                                 inSpecies: bool, inCoords: bool,
                                 species: seq<Species>, rows: seq<CoordRow>)

  const START := ScanState(None, None, None, false, false, [], [])

  /** One iteration of the reading loop on line number `n`. */
  function Step(st: ScanState, l: Line, n: nat): Result<ScanState, FdfError>
  {
    match Classify(l.keys, st.inSpecies, st.inCoords)
    case LabelLine => Ok(st.(systemLabel := Some(LastToken(l.toks))))
    case SpeciesCountLine =>
      (match ParseCount(l.toks, n)
       case Err(e) => Err(e)
       case Ok(v) => Ok(st.(numSpecies := Some(v))))
    case AtomCountLine =>
      (match ParseCount(l.toks, n)
       case Err(e) => Err(e)
       case Ok(v) => Ok(st.(numAtoms := Some(v))))
    case SpeciesMarker => Ok(st.(inSpecies := !st.inSpecies))
    case SpeciesRow =>
      (match ParseSpeciesRow(l.toks, n)
       case Err(e) => Err(e)
       case Ok(sp) => Ok(st.(species := st.species + [sp])))
    case CoordsMarker => Ok(st.(inCoords := !st.inCoords))
    case CoordRowLine =>
      (match ParseCoordRow(l.toks, n)
       case Err(e) => Err(e)
       case Ok(row) => Ok(st.(rows := st.rows + [row])))
    case Ignored => Ok(st)
  }

  /** The reading loop over the read lines of a file: the first raising line
      ends it. */
  function ScanLines(ls: seq<Line>): Result<ScanState, FdfError>
    decreases |ls|
  {
    if ls == [] then Ok(START)
    else
      match ScanLines(ls[..|ls| - 1])
      case Err(e) => Err(e)
      case Ok(st) => Step(st, ls[|ls| - 1], |ls| - 1)
  }

  function Scan(lines: seq<string>): Result<ScanState, FdfError>
  {
    ScanLines(ReadAll(lines))
  }

  /** `chemSpec[k-1]` with Python's list indexing: an index from 1 - |table| to 0
      counts from the end, anything else outside 1..|table| raises. */
  function PyIndex(table: seq<Species>, k: int): (r: Option<Species>)
    ensures 1 <= k <= |table| ==> r == Some(table[k - 1])
    ensures 1 - |table| <= k <= 0 ==> r == Some(table[|table| - 1 + k])
    ensures r.None? <==> k < 1 - |table| || |table| < k
  {
    var i := k - 1;
    if 0 <= i < |table| then Some(table[i])
    else if -|table| <= i < 0 then Some(table[|table| + i])
    else None
  }

  /** `relax_info[:,1] = [chemSpec[specNum-1][1] for specNum in relax_info[:,1]]`:
      every row keeps its place and its coordinates and gets its symbol, or the
      first row whose index is out of range raises. */
  function Resolve(table: seq<Species>, rows: seq<CoordRow>): (r: Result<seq<Atom>, FdfError>)
    ensures r.Ok? <==> forall j :: 0 <= j < |rows| ==> PyIndex(table, rows[j].species).Some?
    ensures r.Ok? ==>
      |r.value| == |rows| &&
      forall j :: 0 <= j < |rows| ==>
        r.value[j] == Atom(rows[j].coords, PyIndex(table, rows[j].species).value.symbol)
    ensures r.Err? ==>
      exists j :: FirstUnresolvable(table, rows, j) && r.error == SpeciesOutOfRange(rows[j].species)
    decreases |rows|
  {
    if rows == [] then Ok([])
    else
      var pre := rows[..|rows| - 1];
      var last := rows[|rows| - 1];
      assert forall j :: 0 <= j < |pre| ==> pre[j] == rows[j];
      match Resolve(table, pre)
      case Err(e) =>
        assert exists j :: FirstUnresolvable(table, rows, j) && e == SpeciesOutOfRange(rows[j].species) by {
          var j :| FirstUnresolvable(table, pre, j) && e == SpeciesOutOfRange(pre[j].species);
          assert FirstUnresolvable(table, rows, j);
        }
        Err(e)
      case Ok(atoms) =>
        match PyIndex(table, last.species)
        case None =>
          assert FirstUnresolvable(table, rows, |rows| - 1);
          Err(SpeciesOutOfRange(last.species))
        case Some(sp) => Ok(atoms + [Atom(last.coords, sp.symbol)])
  }

  /** Row `j` is the first whose species index does not resolve. */
  ghost predicate FirstUnresolvable(table: seq<Species>, rows: seq<CoordRow>, j: int)
  {
    0 <= j < |rows| && PyIndex(table, rows[j].species).None? &&
    forall i :: 0 <= i < j ==> PyIndex(table, rows[i].species).Some?
  }

  /** What follows the loop: the three variables must have been bound (in the
      order the prints use them), numpy must see a non-empty array, and the
      species indices are resolved. */
  function Finish(st: ScanState): (r: Result<FdfInfo, FdfError>)
    ensures r.Ok? <==> st.systemLabel.Some? && st.numSpecies.Some? && st.numAtoms.Some? &&
                       st.rows != [] && Resolve(st.species, st.rows).Ok?
    ensures r.Ok? ==> r.value == FdfInfo(st.systemLabel.value, st.numSpecies.value, st.numAtoms.value,
                                         st.species, Resolve(st.species, st.rows).value)
    ensures st.systemLabel.None? ==> r == Err(MissingKeyword("SystemLabel"))
    ensures st.systemLabel.Some? && st.numSpecies.None? ==> r == Err(MissingKeyword("NumberOfSpecies"))
    ensures st.systemLabel.Some? && st.numSpecies.Some? && st.numAtoms.None? ==> r == Err(MissingKeyword("NumberOfAtoms"))
  {
    if st.systemLabel.None? then Err(MissingKeyword("SystemLabel"))
    else if st.numSpecies.None? then Err(MissingKeyword("NumberOfSpecies"))
    else if st.numAtoms.None? then Err(MissingKeyword("NumberOfAtoms"))
    else if st.rows == [] then Err(NoCoordinates)
    else
      match Resolve(st.species, st.rows)
      case Err(e) => Err(e)
      case Ok(atoms) => Ok(FdfInfo(st.systemLabel.value, st.numSpecies.value, st.numAtoms.value, st.species, atoms))
  }

  /** The whole of `getInfoFromFdf` on the read lines of one file. */
  function ParseLines(ls: seq<Line>): Result<FdfInfo, FdfError>
  {
    match ScanLines(ls)
    case Err(e) => Err(e)
    case Ok(st) => Finish(st)
  }

  /** The whole of `getInfoFromFdf` on the lines of one file. */
  function ParseFdf(lines: seq<string>): Result<FdfInfo, FdfError>
  {
    ParseLines(ReadAll(lines))
  }

  /** Once a line has raised, the later lines change nothing. */
  lemma {:induction false} ScanErrorSticks(ls: seq<Line>, i: nat, e: FdfError)
    requires i <= |ls|
    requires ScanLines(ls[..i]) == Err(e)
    ensures ScanLines(ls) == Err(e)
    decreases |ls| - i
  {
    if i < |ls| {
      assert ls[..i + 1][..i] == ls[..i];
      ScanErrorSticks(ls, i + 1, e);
    } else {
      assert ls[..i] == ls;
    }
  }

  /** Only the text before the first `#` is interpreted: whatever follows it
      leaves the line as read unchanged. */
  lemma CommentTailIgnored(p: string, q: string)
    requires '#' !in p
    ensures Read(p + "#" + q) == Read(p)
  {
    BeforeFirstOf(p, '#', q);
  }

  /** A line that starts with `#` holds no keyword and no token: it changes
      nothing outside the two blocks, and inside either block it is a row with
      no tokens, so Python's indexing raises. */
  lemma CommentLine(st: ScanState, line: string, n: nat)
    requires |line| > 0 && line[0] == '#'
    ensures Read(line) == LineInfo(NO_KEYS, [])
    ensures Step(st, Read(line), n) == if st.inSpecies || st.inCoords then Err(MissingToken(n)) else Ok(st)
  {
    assert StripComment(line) == [];
    assert Lower([]) == [];
    assert Tokens(line) == [];
    NotInEmpty("systemlabel");
  }

  /** The index of the last line that takes the keyword branch `kind`, or -1
      when no line does.  The flags are irrelevant for the three value
      keywords, which come first in the chain. */
  ghost function LastKeyLine(ls: seq<Line>, kind: LineKind): (i: int)
    ensures -1 <= i < |ls|
    ensures i >= 0 ==> Classify(ls[i].keys, false, false) == kind
    ensures forall j :: i < j < |ls| ==> Classify(ls[j].keys, false, false) != kind
    decreases |ls|
  {
    if ls == [] then -1
    else if Classify(ls[|ls| - 1].keys, false, false) == kind then |ls| - 1
    else LastKeyLine(ls[..|ls| - 1], kind)
  }

  /** When a keyword occurs on several lines the last one wins: the label is
      the last token of the last `systemlabel` line, and without such a line
      the label stays unbound. */
  lemma {:induction false} LastLabelWins(ls: seq<Line>)
    requires ScanLines(ls).Ok?
    ensures var i := LastKeyLine(ls, LabelLine);
      ScanLines(ls).value.systemLabel == if i < 0 then None else Some(LastToken(ls[i].toks))
    decreases |ls|
  {
    if ls != [] {
      var p := ls[..|ls| - 1];
      assert ScanLines(p).Ok?;
      LastLabelWins(p);
      assert forall j :: 0 <= j < |p| ==> p[j] == ls[j];
    }
  }

  /** The species count is the value of the last token of the last
      `numberofspecies` line, and stays unbound without one. */
  lemma {:induction false} LastSpeciesCountWins(ls: seq<Line>)
    requires ScanLines(ls).Ok?
    ensures var i := LastKeyLine(ls, SpeciesCountLine);
      ScanLines(ls).value.numSpecies == if i < 0 then None else ParseInt(LastToken(ls[i].toks))
    decreases |ls|
  {
    if ls != [] {
      var p := ls[..|ls| - 1];
      assert ScanLines(p).Ok?;
      LastSpeciesCountWins(p);
      assert forall j :: 0 <= j < |p| ==> p[j] == ls[j];
    }
  }

  /** The atom count is the value of the last token of the last
      `numberofatoms` line, and stays unbound without one. */
  lemma {:induction false} LastAtomCountWins(ls: seq<Line>)
    requires ScanLines(ls).Ok?
    ensures var i := LastKeyLine(ls, AtomCountLine);
      ScanLines(ls).value.numAtoms == if i < 0 then None else ParseInt(LastToken(ls[i].toks))
    decreases |ls|
  {
    if ls != [] {
      var p := ls[..|ls| - 1];
      assert ScanLines(p).Ok?;
      LastAtomCountWins(p);
      assert forall j :: 0 <= j < |p| ==> p[j] == ls[j];
    }
  }

  /** Number of species-block markers among `ls`. */
  ghost function SpeciesMarkers(ls: seq<Line>): nat
    decreases |ls|
  {
    if ls == [] then 0
    else SpeciesMarkers(ls[..|ls| - 1]) +
         (if Classify(ls[|ls| - 1].keys, false, false) == SpeciesMarker then 1 else 0)
  }

  /** After `ls`, an odd number of species markers has been seen. */
  ghost predicate InSpeciesBlock(ls: seq<Line>)
  {
    SpeciesMarkers(ls) % 2 == 1
  }

  /** Number of coordinate-block markers among `ls` that are read as markers,
      that is, that stand outside a species block. */
  ghost function CoordsMarkers(ls: seq<Line>): nat
    decreases |ls|
  {
    if ls == [] then 0
    else
      var p := ls[..|ls| - 1];
      CoordsMarkers(p) +
      (if !InSpeciesBlock(p) && Classify(ls[|ls| - 1].keys, false, false) == CoordsMarker then 1 else 0)
  }

  ghost predicate InCoordsBlock(ls: seq<Line>)
  {
    CoordsMarkers(ls) % 2 == 1
  }

  /** The positions of the species rows: the lines inside a species block that
      are not one of the four keyword lines. */
  ghost function SpeciesRowLines(ls: seq<Line>): (r: seq<nat>)
    ensures forall j :: 0 <= j < |r| ==> r[j] < |ls|
    ensures forall j, k :: 0 <= j < k < |r| ==> r[j] < r[k]
    decreases |ls|
  {
    if ls == [] then []
    else
      var p := ls[..|ls| - 1];
      SpeciesRowLines(p) +
      (if InSpeciesBlock(p) && Classify(ls[|ls| - 1].keys, true, false) == SpeciesRow then [|p|] else [])
  }

  /** The positions of the coordinate rows: the lines inside a coordinate block,
      outside any species block, that are neither keyword nor marker lines. */
  ghost function CoordRowLines(ls: seq<Line>): (r: seq<nat>)
    ensures forall j :: 0 <= j < |r| ==> r[j] < |ls|
    ensures forall j, k :: 0 <= j < k < |r| ==> r[j] < r[k]
    decreases |ls|
  {
    if ls == [] then []
    else
      var p := ls[..|ls| - 1];
      CoordRowLines(p) +
      (if !InSpeciesBlock(p) && InCoordsBlock(p) && Classify(ls[|ls| - 1].keys, false, true) == CoordRowLine
       then [|p|] else [])
  }

  /** The block flags are the parities of the markers seen so far. */
  lemma {:induction false} BlockFlags(ls: seq<Line>)
    requires ScanLines(ls).Ok?
    ensures ScanLines(ls).value.inSpecies == InSpeciesBlock(ls)
    ensures ScanLines(ls).value.inCoords == InCoordsBlock(ls)
    decreases |ls|
  {
    if ls != [] {
      var p := ls[..|ls| - 1];
      assert ScanLines(p).Ok?;
      BlockFlags(p);
      assert ScanLines(ls) == Step(ScanLines(p).value, ls[|p|], |p|);
      StepFlags(ScanLines(p).value, ls[|p|], |p|);
    }
  }

  /** One line toggles the species flag when it is a species marker, and the
      coordinate flag when it is a coordinate marker outside a species block. */
  lemma StepFlags(st: ScanState, l: Line, n: nat)
    requires Step(st, l, n).Ok?
    ensures Step(st, l, n).value.inSpecies == (st.inSpecies != (Classify(l.keys, false, false) == SpeciesMarker))
    ensures Step(st, l, n).value.inCoords ==
      (st.inCoords != (!st.inSpecies && Classify(l.keys, false, false) == CoordsMarker))
  {
  }

  /** The species table holds exactly the rows at the positions of
      `SpeciesRowLines`, in file order, each parsed from its own line. */
  lemma {:induction false} SpeciesRows(ls: seq<Line>)
    requires ScanLines(ls).Ok?
    ensures var st := ScanLines(ls).value; var pos := SpeciesRowLines(ls);
      |st.species| == |pos| &&
      forall j :: 0 <= j < |pos| ==> ParseSpeciesRow(ls[pos[j]].toks, pos[j]) == Ok(st.species[j])
    decreases |ls|
  {
    if ls != [] {
      var p := ls[..|ls| - 1];
      assert ScanLines(p).Ok?;
      SpeciesRows(p);
      BlockFlags(p);
      assert forall j :: 0 <= j < |p| ==> p[j] == ls[j];
    }
  }

  /** The coordinate list holds exactly the rows at the positions of
      `CoordRowLines`, in file order, each parsed from its own line. */
  lemma {:induction false} CoordRows(ls: seq<Line>)
    requires ScanLines(ls).Ok?
    ensures var st := ScanLines(ls).value; var pos := CoordRowLines(ls);
      |st.rows| == |pos| &&
      forall j :: 0 <= j < |pos| ==> ParseCoordRow(ls[pos[j]].toks, pos[j]) == Ok(st.rows[j])
    decreases |ls|
  {
    if ls != [] {
      var p := ls[..|ls| - 1];
      assert ScanLines(p).Ok?;
      CoordRows(p);
      BlockFlags(p);
      assert forall j :: 0 <= j < |p| ==> p[j] == ls[j];
    }
  }

  /** Species C and O, indices 1, 2, 1. */
  lemma ResolveExample(c1: seq<string>, c2: seq<string>, c3: seq<string>)
    ensures Resolve([Species(6, "C"), Species(8, "O")], [CoordRow(c1, 1), CoordRow(c2, 2), CoordRow(c3, 1)])
            == Ok([Atom(c1, "C"), Atom(c2, "O"), Atom(c3, "C")])
  {
    var table := [Species(6, "C"), Species(8, "O")];
    var rows := [CoordRow(c1, 1), CoordRow(c2, 2), CoordRow(c3, 1)];
    assert PyIndex(table, 1) == Some(table[0]);
    assert PyIndex(table, 2) == Some(table[1]);
    var r := Resolve(table, rows);
    assert r.Ok? && |r.value| == 3;
    assert r.value[0] == Atom(c1, "C") && r.value[1] == Atom(c2, "O") && r.value[2] == Atom(c3, "C");
    assert r.value == [Atom(c1, "C"), Atom(c2, "O"), Atom(c3, "C")];
  }

  /** A successful read: every keyword was bound, the coordinate list is not
      empty, the species table is the one read, and there is one atom per
      coordinate row, in order. */
  lemma ParseFdfOk(lines: seq<string>)
    requires ParseFdf(lines).Ok?
    ensures var st := Scan(lines).value; var info := ParseFdf(lines).value;
      Scan(lines).Ok? && st.systemLabel == Some(info.systemLabel) &&
      st.numSpecies == Some(info.numSpecies) && st.numAtoms == Some(info.numAtoms) &&
      info.species == st.species && info.atoms != [] && |info.atoms| == |st.rows| &&
      forall j :: 0 <= j < |st.rows| ==> info.atoms[j].coords == st.rows[j].coords
  {
  }

  /** The species-index resolution as the source runs it: a loop that fills the
      symbol column row by row. */
  method ResolveSpecies(chemSpec: seq<Species>, relaxInfo: seq<CoordRow>) returns (r: Result<seq<Atom>, FdfError>)
    ensures r == Resolve(chemSpec, relaxInfo)
  {
    var atoms: seq<Atom> := [];
    for j := 0 to |relaxInfo|
      invariant Resolve(chemSpec, relaxInfo[..j]) == Ok(atoms)
    {
      assert relaxInfo[..j + 1][..j] == relaxInfo[..j];
      match PyIndex(chemSpec, relaxInfo[j].species)
      case None =>
        r := Err(SpeciesOutOfRange(relaxInfo[j].species));
        assert Resolve(chemSpec, relaxInfo[..j + 1]) == r;
        return;
      case Some(sp) =>
        atoms := atoms + [Atom(relaxInfo[j].coords, sp.symbol)];
    }
    assert relaxInfo[..|relaxInfo|] == relaxInfo;
    r := Ok(atoms);
  }

  /** `getInfoFromFdf`: every line is read, as the loop reads it, and the
      read lines go through the loop and the checks after it. */
  method GetInfoFromFdf(lines: seq<string>) returns (r: Result<FdfInfo, FdfError>)
    ensures r == ParseFdf(lines)
  {
    var ls: seq<Line> := [];
    for k := 0 to |lines|
      invariant ls == ReadAll(lines[..k])
    {
      ls := ls + [Read(lines[k])];
    }
    assert lines[..|lines|] == lines;
    r := ParseReadLines(ls);
  }

  /** The reading loop with its two flags, then the checks and the species
      resolution. */
  method ParseReadLines(ls: seq<Line>) returns (r: Result<FdfInfo, FdfError>)
    ensures r == ParseLines(ls)
  {
    var chemSpec: seq<Species> := [];
    var relaxInfo: seq<CoordRow> := [];
    var listenForSpecies, listenForCoords := false, false;
    var systemLabel: Option<string> := None;
    var numSpecies: Option<int> := None;
    var numberOfAtoms: Option<int> := None;
    var i := 0;
    while i < |ls|
      invariant 0 <= i <= |ls|
      invariant ScanLines(ls[..i]) == Ok(ScanState(systemLabel, numSpecies, numberOfAtoms,
                                                  listenForSpecies, listenForCoords, chemSpec, relaxInfo))
    {
      assert ls[..i + 1][..i] == ls[..i];
      var line := ls[i];
      var splitted := line.toks;
      var failure: Option<FdfError> := None;
      match Classify(line.keys, listenForSpecies, listenForCoords) {
      case LabelLine =>
        systemLabel := Some(LastToken(splitted));
      case SpeciesCountLine =>
        var v := ParseCount(splitted, i);
        if v.Err? { failure := Some(v.error); } else { numSpecies := Some(v.value); }
      case AtomCountLine =>
        var v := ParseCount(splitted, i);
        if v.Err? { failure := Some(v.error); } else { numberOfAtoms := Some(v.value); }
      case SpeciesMarker =>
        listenForSpecies := !listenForSpecies;
      case SpeciesRow =>
        var row := ParseSpeciesRow(splitted, i);
        if row.Err? { failure := Some(row.error); } else { chemSpec := chemSpec + [row.value]; }
      case CoordsMarker =>
        listenForCoords := !listenForCoords;
      case CoordRowLine =>
        var row := ParseCoordRow(splitted, i);
        if row.Err? { failure := Some(row.error); } else { relaxInfo := relaxInfo + [row.value]; }
      case Ignored =>
      }
      if failure.Some? {
        r := Err(failure.value);
        ScanErrorSticks(ls, i + 1, r.error);
        return;
      }
      i := i + 1;
    }
    assert ls[..|ls|] == ls;
    if systemLabel.None? {
      return Err(MissingKeyword("SystemLabel"));
    }
    if numSpecies.None? {
      return Err(MissingKeyword("NumberOfSpecies"));
    }
    if numberOfAtoms.None? {
      return Err(MissingKeyword("NumberOfAtoms"));
    }
    if relaxInfo == [] {
      return Err(NoCoordinates);
    }
    var atoms := ResolveSpecies(chemSpec, relaxInfo);
    if atoms.Err? {
      return Err(atoms.error);
    }
    r := Ok(FdfInfo(systemLabel.value, numSpecies.value, numberOfAtoms.value, chemSpec, atoms.value));
  }
}
