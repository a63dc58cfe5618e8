/** The line processing of the band-structure plotter
    (Working/FC-LUA/vibra/Plot_Band-v-0.5.py): the name of the `.bands` file
    taken from the structure file, the header and the high-symmetry points
    read from the `.bands` file, the spin channels and the band counts read
    from the output of `gnubands`, the cutting of each channel into bands,
    and the ticks of the x axis.  Energies and positions stay tokens; where
    the script compares two numbers, the conversion and the comparison are
    parameters. */
module Bands {
  import opened Wrappers
  import opened Text

  /** Every way the script can stop with an exception once its files are open. */
  datatype BandError =
    | NoSystemLabel                          // Energy[0] on an empty list, line 32
    | ShortEnergyLine(tokens: nat)           // tmp[0] or tmp[1] on line 2 of the .bands file
    | NoFermiEnergy                          // efermi[0] on an empty list, line 54
    | ShortSymmetryLine(line: nat)           // float() of the only, quoted token, line 72
    | NoEnergyRange                          // minE[0] on an empty list, line 79
    | ShortDataLine(line: nat)               // i_line[2], line 100
    | ShortCountsHeader(line: nat)           // j_line[5], [6] or [7], lines 110-112
    | CountNotInteger(line: nat, token: string) // int() of a count, line 113
    | NoCountsHeader                         // NameError: j_line never bound, line 114
    | ZeroBands                              // division by int(numbands), line 121
    | TooFewSymmetryPoints                   // fbzpoint[2], line 132

  // ---------------------------------------------------------------------
  // The name of the .bands file (lines 28-34)
  // ---------------------------------------------------------------------

  /** `'SystemLabel' in line`, case-sensitive. */
  predicate HasLabel(line: string)
  {
    Contains(line, "SystemLabel")
  }

  /** `line.split(" ", 1)[-1]` */
  function LabelValue(line: string): string
  {
    AfterFirst(line, ' ')
  }

  /** The list `Energy`: the value part of every line that mentions the label. */
  function LabelValues(lines: seq<string>): seq<string>
  {
    Map(Filter(lines, HasLabel), LabelValue)
  }

  /** `str(Energy[0]).strip() + '.bands'` */
  function BandsFileName(lines: seq<string>): Result<string, BandError>
  {
    var values := LabelValues(lines);
    if values == [] then Err(NoSystemLabel) else Ok(Strip(values[0]) + ".bands")
  }

  /** The name comes from the first line that mentions `SystemLabel`, and
      there is one exactly when some line mentions it. */
  lemma BandsFileFromFirstLabel(lines: seq<string>)
    ensures BandsFileName(lines).Ok? <==> exists j :: 0 <= j < |lines| && HasLabel(lines[j])
    ensures BandsFileName(lines).Ok? ==>
      exists j :: FirstWith(lines, HasLabel, j) &&
                  BandsFileName(lines).value == Strip(AfterFirst(lines[j], ' ')) + ".bands"
  {
    FilterFirst(lines, HasLabel);
  }

  /** The loop of lines 29-31 and the name built from its first entry. */
  method FindBandsFile(lines: seq<string>) returns (r: Result<string, BandError>)
    ensures r == BandsFileName(lines)
  {
    var energy: seq<string> := [];
    for i := 0 to |lines|
      invariant energy == LabelValues(lines[..i])
    {
      assert lines[..i + 1][..i] == lines[..i];
      if Contains(lines[i], "SystemLabel") {
        MapSnoc(Filter(lines[..i], HasLabel), lines[i], LabelValue);
        energy := energy + [AfterFirst(lines[i], ' ')];
      }
    }
    assert lines[..|lines|] == lines;
    if energy == [] {
      return Err(NoSystemLabel);
    }
    return Ok(Strip(energy[0]) + ".bands");
  }

  // ---------------------------------------------------------------------
  // The header of the .bands file (lines 39-54)
  // ---------------------------------------------------------------------

  /** `efermi` and `bzpt` are the tokens of lines 0 and 1; `minE` and `maxE`
      hold the first two tokens of line 2, or nothing if there is no line 2. */
  datatype Header = Header(efermi: seq<string>, bzpt: seq<string>, minE: seq<string>, maxE: seq<string>)

  function HeaderOf(lines: seq<string>): Result<Header, BandError>
  {
    var efermi := if |lines| > 0 then Split(lines[0]) else [];
    var bzpt := if |lines| > 1 then Split(lines[1]) else [];
    if |lines| > 2 then
      var tmp := Split(lines[2]);
      if |tmp| < 2 then Err(ShortEnergyLine(|tmp|)) else Ok(Header(efermi, bzpt, [tmp[0]], [tmp[1]]))
    else
      Ok(Header(efermi, bzpt, [], []))
  }

  /** Only the first three lines matter: what follows them changes nothing. */
  lemma HeaderFromFirstThreeLines(lines: seq<string>, more: seq<string>)
    requires |lines| >= 3
    ensures HeaderOf(lines + more) == HeaderOf(lines)
  {
    var all := lines + more;
    assert all[0] == lines[0] && all[1] == lines[1] && all[2] == lines[2];
  }

  /** The `enumerate` loop over the whole file. */
  method ReadHeader(lines: seq<string>) returns (r: Result<Header, BandError>)
    ensures r == HeaderOf(lines)
  {
    var efermi: seq<string> := [];
    var bzpt: seq<string> := [];
    var minE: seq<string> := [];
    var maxE: seq<string> := [];
    for i := 0 to |lines|
      invariant efermi == if i > 0 then Split(lines[0]) else []
      invariant bzpt == if i > 1 then Split(lines[1]) else []
      invariant i > 2 ==> |Split(lines[2])| >= 2
      invariant minE == (if i > 2 then [Split(lines[2])[0]] else [])
      invariant maxE == (if i > 2 then [Split(lines[2])[1]] else [])
    {
      if i == 0 {
        efermi := Split(lines[i]);
      }
      if i == 1 {
        bzpt := Split(lines[i]);
      }
      if i == 2 {
        var tmp := Split(lines[i]);
        if |tmp| < 2 {
          return Err(ShortEnergyLine(|tmp|));
        }
        minE := minE + [tmp[0]];
        maxE := maxE + [tmp[1]];
      }
    }
    r := Ok(Header(efermi, bzpt, minE, maxE));
  }

  // ---------------------------------------------------------------------
  // The high-symmetry points (lines 63-73)
  // ---------------------------------------------------------------------

  /** A point on the k path: its position token and its name, quotes removed. */
  datatype Marker = Marker(point: string, name: string)

  predicate Quoted(line: string)
  {
    '\'' in line
  }

  /** A line holding a quote always has a token, so the `len` test of line 71
      never fails. */
  lemma QuotedLineHasToken(line: string)
    requires Quoted(line)
    ensures Split(line) != []
  {
    var k :| 0 <= k < |line| && line[k] == '\'';
    assert !IsSpace(line[k]);
  }

  /** The loop of lines 66-73 over the lines seen so far. */
  function SymmetryPoints(lines: seq<string>): Result<seq<Marker>, BandError>
    decreases |lines|
  {
    if lines == [] then Ok([])
    else
      var n := |lines| - 1;
      match SymmetryPoints(lines[..n])
      case Err(e) => Err(e)
      case Ok(markers) =>
        if !Quoted(lines[n]) then Ok(markers)
        else
          var toks := Split(lines[n]);
          if |toks| == 0 then Ok(markers)
          else if |toks| < 2 then Err(ShortSymmetryLine(n))
          else Ok(markers + [Marker(toks[0], RemoveAll(toks[1], '\''))])
  }

  /** Every quoted line has at least two tokens. */
  ghost predicate QuotedLinesWellFormed(lines: seq<string>)
  {
    forall k :: 0 <= k < |lines| && Quoted(lines[k]) ==> |Split(lines[k])| >= 2
  }

  /** The markers are the quoted lines, in file order, one marker each, made
      of the first token and the second token without its quotes; reading
      fails exactly when some quoted line has fewer than two tokens. */
  lemma {:induction false} SymmetryPointsSpec(lines: seq<string>)
    ensures SymmetryPoints(lines).Ok? <==> QuotedLinesWellFormed(lines)
    ensures SymmetryPoints(lines).Ok? ==>
      var q := Filter(lines, Quoted); var markers := SymmetryPoints(lines).value;
      |markers| == |q| &&
      forall k :: 0 <= k < |q| ==>
        |Split(q[k])| >= 2 && markers[k] == Marker(Split(q[k])[0], RemoveAll(Split(q[k])[1], '\''))
    decreases |lines|
  {
    if lines != [] {
      var n := |lines| - 1;
      var pre := lines[..n];
      SymmetryPointsSpec(pre);
      assert forall k :: 0 <= k < n ==> pre[k] == lines[k];
      if Quoted(lines[n]) {
        QuotedLineHasToken(lines[n]);
      }
    }
  }

  /** The loop as the script runs it. */
  method ReadSymmetryPoints(lines: seq<string>) returns (r: Result<seq<Marker>, BandError>)
    ensures r == SymmetryPoints(lines)
  {
    var markers: seq<Marker> := [];
    for i := 0 to |lines|
      invariant SymmetryPoints(lines[..i]) == Ok(markers)
    {
      assert lines[..i + 1][..i] == lines[..i];
      if '\'' in lines[i] {
        var toks := Split(lines[i]);
        if |toks| > 0 {
          if |toks| < 2 {
            r := Err(ShortSymmetryLine(i));
            SymmetryPointsErrorSticks(lines, i + 1, r.error);
            return;
          }
          markers := markers + [Marker(toks[0], RemoveAll(toks[1], '\''))];
        }
      }
    }
    assert lines[..|lines|] == lines;
    r := Ok(markers);
  }

  lemma {:induction false} SymmetryPointsErrorSticks(lines: seq<string>, i: nat, e: BandError)
    requires i <= |lines|
    requires SymmetryPoints(lines[..i]) == Err(e)
    ensures SymmetryPoints(lines) == Err(e)
    decreases |lines| - i
  {
    if i < |lines| {
      assert lines[..i + 1][..i] == lines[..i];
      SymmetryPointsErrorSticks(lines, i + 1, e);
    } else {
      assert lines[..i] == lines;
    }
  }

  // ---------------------------------------------------------------------
  // The spin channels and the counts header (lines 89-116)
  // ---------------------------------------------------------------------

  const COUNTS_HEADER := "# Nbands, Nspin, Nk ="

  /** What the loop looks at in one line of the `gnubands` output: whether it
      holds a `#`, whether it holds the counts header, and its tokens. */
  datatype OutputView = OutputView(hasHash: bool, isHeader: bool, toks: seq<string>)

  type OutputLine = v: OutputView | v.isHeader ==> v.hasHash witness OutputView(false, false, [])

  function ReadOutput(line: string): (r: OutputLine)
    ensures r.hasHash == ('#' in line) && r.isHeader == Contains(line, COUNTS_HEADER) && r.toks == Split(line)
  {
    HeaderHasHash(line);
    OutputView('#' in line, Contains(line, COUNTS_HEADER), Split(line))
  }

  /** The counts header starts with `#`, so it is never a data line. */
  lemma HeaderHasHash(line: string)
    ensures Contains(line, COUNTS_HEADER) ==> '#' in line
  {
    if Contains(line, COUNTS_HEADER) {
      var i: nat :| i <= |line| && OccursAt(line, COUNTS_HEADER, i);
      assert line[i] == line[i..i + |COUNTS_HEADER|][0];
    }
  }

  function ReadOutputs(lines: seq<string>): (r: seq<OutputLine>)
    ensures |r| == |lines|
    ensures forall k :: 0 <= k < |lines| ==> r[k] == ReadOutput(lines[k])
  {
    seq(|lines|, k requires 0 <= k < |lines| => ReadOutput(lines[k]))
  }

  /** Number of bands, of spins and of k points. */
  datatype Counts = Counts(bands: int, spins: int, kpoints: int)

  /** The total the script prints. */
  function Total(c: Counts): int
  {
    c.bands * c.spins * c.kpoints
  }

  /** Tokens 5, 6 and 7 of the header, read in that order. */
  function ParseCounts(toks: seq<string>, n: nat): (r: Result<Counts, BandError>)
    ensures r.Ok? <==> |toks| >= 8 && ParseInt(toks[5]).Some? && ParseInt(toks[6]).Some? && ParseInt(toks[7]).Some?
    ensures r.Ok? ==> (|toks| >= 8 &&
      ParseInt(toks[5]) == Some(r.value.bands) && ParseInt(toks[6]) == Some(r.value.spins) &&
      ParseInt(toks[7]) == Some(r.value.kpoints))
    ensures |toks| < 8 ==> r == Err(ShortCountsHeader(n))
    ensures r.Err? && |toks| >= 8 ==>
      exists k :: FirstNonInteger(toks, k) && r.error == CountNotInteger(n, toks[k])
  {
    if |toks| < 8 then Err(ShortCountsHeader(n))
    else match (ParseInt(toks[5]), ParseInt(toks[6]), ParseInt(toks[7]))
      case (None, _, _) =>
        assert FirstNonInteger(toks, 5);
        Err(CountNotInteger(n, toks[5]))
      case (Some(_), None, _) =>
        assert FirstNonInteger(toks, 6);
        Err(CountNotInteger(n, toks[6]))
      case (Some(_), Some(_), None) =>
        assert FirstNonInteger(toks, 7);
        Err(CountNotInteger(n, toks[7]))
      case (Some(b), Some(s), Some(k)) => Ok(Counts(b, s, k))
  }

  /** Token `k` is the first of tokens 5, 6 and 7 that is not an integer. */
  ghost predicate FirstNonInteger(toks: seq<string>, k: int)
  {
    5 <= k <= 7 && k < |toks| && ParseInt(toks[k]).None? &&
    forall j :: 5 <= j < k ==> ParseInt(toks[j]).Some?
  }

  /** The words of the header that gnubands writes with 10 bands, 2 spins
      and 50 k points, joined by blanks, give that header. */
  lemma CountsHeaderJoin(line: string)
    requires line == "# Nbands, Nspin, Nk = 10 2 50"
    ensures Join(' ', ["#", "Nbands,", "Nspin,", "Nk", "=", "10", "2", "50"]) == line
  {
    var ws := ["#", "Nbands,", "Nspin,", "Nk", "=", "10", "2", "50"];
    assert Join(' ', ws) == line;
  }

  /** The tokens of that header. */
  lemma CountsHeaderTokens(line: string)
    requires line == "# Nbands, Nspin, Nk = 10 2 50"
    ensures Split(line) == ["#", "Nbands,", "Nspin,", "Nk", "=", "10", "2", "50"]
  {
    var ws := ["#", "Nbands,", "Nspin,", "Nk", "=", "10", "2", "50"];
    CountsHeaderJoin(line);
    assert forall k :: 0 <= k < |ws| ==> ws[k] != [] && NoSpace(ws[k]);
    SplitJoin(' ', ws);
  }

  /** The count tokens of that header give 10 bands, 2 spins and 50 k points. */
  lemma CountsFromTokens(toks: seq<string>)
    requires toks == ["#", "Nbands,", "Nspin,", "Nk", "=", "10", "2", "50"]
    ensures ParseCounts(toks, 0) == Ok(Counts(10, 2, 50))
  {
    assert ParseInt("10") == Some(10) by { assert DigitsValue("10") == 10 by { assert "10"[..1] == "1"; } }
    assert ParseInt("2") == Some(2);
    assert ParseInt("50") == Some(50) by { assert DigitsValue("50") == 50 by { assert "50"[..1] == "5"; } }
  }

  /** That header is recognised as the counts header and gives 10 bands,
      2 spins and 50 k points, 1000 in all. */
  lemma CountsExample(line: string)
    requires line == "# Nbands, Nspin, Nk = 10 2 50"
    ensures Contains(line, COUNTS_HEADER)
    ensures ParseCounts(Split(line), 0) == Ok(Counts(10, 2, 50))
    ensures Total(Counts(10, 2, 50)) == 1000
  {
    assert OccursAt(line, COUNTS_HEADER, 0);
    CountsHeaderTokens(line);
    CountsFromTokens(Split(line));
  }

  /** The lists of the loop and the counts of the last header, if any. */
  datatype SpinState = SpinState(tkpoint: seq<string>,
                                 energyUp: seq<string>, kpointUp: seq<string>,
                                 energyDown: seq<string>, kpointDown: seq<string>,
                                 counts: Option<Counts>)

  const SPIN_START := SpinState([], [], [], [], [], None)

  /** A data line: no `#` and at least one token. */
  predicate IsData(l: OutputLine)
  {
    !l.hasHash && l.toks != []
  }

  predicate IsUp(l: OutputLine)
  {
    IsData(l) && |l.toks| >= 3 && l.toks[2] == "1"
  }

  predicate IsDown(l: OutputLine)
  {
    IsData(l) && |l.toks| >= 3 && l.toks[2] == "2"
  }

  function Token0(l: OutputLine): string
  {
    if |l.toks| > 0 then l.toks[0] else ""
  }

  function Token1(l: OutputLine): string
  {
    if |l.toks| > 1 then l.toks[1] else ""
  }

  /** One iteration of the loop of lines 95-113 on line number `n`. */
  function SpinStep(st: SpinState, l: OutputLine, n: nat): Result<SpinState, BandError>
  {
    if !l.hasHash then
      if l.toks == [] then Ok(st)
      else if |l.toks| < 3 then Err(ShortDataLine(n))
      else
        var t := l.toks;
        var st1 := st.(tkpoint := st.tkpoint + [t[0]]);
        var st2 := if t[2] == "1" then st1.(energyUp := st1.energyUp + [t[1]], kpointUp := st1.kpointUp + [t[0]])
                   else st1;
        var st3 := if t[2] == "2" then st2.(energyDown := st2.energyDown + [t[1]], kpointDown := st2.kpointDown + [t[0]])
                   else st2;
        Ok(st3)
    else if l.isHeader then
      match ParseCounts(l.toks, n)
      case Err(e) => Err(e)
      case Ok(c) => Ok(st.(counts := Some(c)))
    else Ok(st)
  }

  function SpinScan(ls: seq<OutputLine>): Result<SpinState, BandError>
    decreases |ls|
  {
    if ls == [] then Ok(SPIN_START)
    else
      match SpinScan(ls[..|ls| - 1])
      case Err(e) => Err(e)
      case Ok(st) => SpinStep(st, ls[|ls| - 1], |ls| - 1)
  }

  /** Line `n` does not raise: a data line has a third token, and a header
      line has three integer counts. */
  predicate LineOk(l: OutputLine, n: nat)
  {
    (IsData(l) ==> |l.toks| >= 3) && (l.isHeader ==> ParseCounts(l.toks, n).Ok?)
  }

  /** The loop runs to the end exactly when no line raises. */
  lemma {:induction false} SpinScanSucceeds(ls: seq<OutputLine>)
    ensures SpinScan(ls).Ok? <==> forall k :: 0 <= k < |ls| ==> LineOk(ls[k], k)
    decreases |ls|
  {
    if ls != [] {
      var pre := ls[..|ls| - 1];
      SpinScanSucceeds(pre);
      assert forall k :: 0 <= k < |pre| ==> pre[k] == ls[k];
    }
  }

  /** Every data line gives its first token to `tkpoint`, in input order. */
  lemma {:induction false} DataRouting(ls: seq<OutputLine>)
    requires SpinScan(ls).Ok?
    ensures SpinScan(ls).value.tkpoint == Map(Filter(ls, IsData), Token0)
    decreases |ls|
  {
    if ls != [] {
      var pre := ls[..|ls| - 1];
      DataRouting(pre);
      MapSnoc(Filter(pre, IsData), ls[|ls| - 1], Token0);
    }
  }

  /** The lines whose third token is `1` give their first token to
      `kpoint_up` and their second to `energy_up`, in input order. */
  lemma {:induction false} UpRouting(ls: seq<OutputLine>)
    requires SpinScan(ls).Ok?
    ensures var st := SpinScan(ls).value;
      st.kpointUp == Map(Filter(ls, IsUp), Token0) && st.energyUp == Map(Filter(ls, IsUp), Token1)
    decreases |ls|
  {
    if ls != [] {
      var pre := ls[..|ls| - 1];
      UpRouting(pre);
      MapSnoc(Filter(pre, IsUp), ls[|ls| - 1], Token0);
      MapSnoc(Filter(pre, IsUp), ls[|ls| - 1], Token1);
    }
  }

  /** The lines whose third token is `2` give their first token to
      `kpoint_down` and their second to `energy_down`, in input order. */
  lemma {:induction false} DownRouting(ls: seq<OutputLine>)
    requires SpinScan(ls).Ok?
    ensures var st := SpinScan(ls).value;
      st.kpointDown == Map(Filter(ls, IsDown), Token0) && st.energyDown == Map(Filter(ls, IsDown), Token1)
    decreases |ls|
  {
    if ls != [] {
      var pre := ls[..|ls| - 1];
      DownRouting(pre);
      MapSnoc(Filter(pre, IsDown), ls[|ls| - 1], Token0);
      MapSnoc(Filter(pre, IsDown), ls[|ls| - 1], Token1);
    }
  }

  /** The k and energy lists of each channel always have equal length, and a
      line goes to at most one channel. */
  lemma {:induction false} SpinPairs(ls: seq<OutputLine>)
    requires SpinScan(ls).Ok?
    ensures var st := SpinScan(ls).value;
      |st.kpointUp| == |st.energyUp| && |st.kpointDown| == |st.energyDown| &&
      |st.kpointUp| + |st.kpointDown| <= |st.tkpoint|
    decreases |ls|
  {
    if ls != [] {
      SpinPairs(ls[..|ls| - 1]);
    }
  }

  /** Index of the last counts header among `ls`, or -1. */
  ghost function LastHeader(ls: seq<OutputLine>): (i: int)
    ensures -1 <= i < |ls|
    ensures i >= 0 ==> ls[i].isHeader
    ensures forall j :: i < j < |ls| ==> !ls[j].isHeader
    decreases |ls|
  {
    if ls == [] then -1
    else if ls[|ls| - 1].isHeader then |ls| - 1
    else LastHeader(ls[..|ls| - 1])
  }

  /** The counts are those of the last header; without a header they stay
      unbound. */
  lemma {:induction false} LastHeaderWins(ls: seq<OutputLine>)
    requires SpinScan(ls).Ok?
    ensures var i := LastHeader(ls); var c := SpinScan(ls).value.counts;
      (i < 0 ==> c == None) && (i >= 0 ==> c.Some? && ParseCounts(ls[i].toks, i) == Ok(c.value))
    decreases |ls|
  {
    if ls != [] {
      var pre := ls[..|ls| - 1];
      SpinScanSucceeds(ls);
      LastHeaderWins(pre);
      assert forall j :: 0 <= j < |pre| ==> pre[j] == ls[j];
    }
  }

  /** The loop of lines 95-113 with its five lists and `j_line`. */
  method SplitSpins(lines: seq<string>) returns (r: Result<SpinState, BandError>)
    ensures r == SpinScan(ReadOutputs(lines))
  {
    ghost var ls := ReadOutputs(lines);
    var tkpoint, energyUp, kpointUp, energyDown, kpointDown := [], [], [], [], [];
    var counts: Option<Counts> := None;
    for i := 0 to |lines|
      invariant SpinScan(ls[..i]) == Ok(SpinState(tkpoint, energyUp, kpointUp, energyDown, kpointDown, counts))
    {
      assert ls[..i + 1][..i] == ls[..i];
      ghost var before := SpinState(tkpoint, energyUp, kpointUp, energyDown, kpointDown, counts);
      var line := ReadOutput(lines[i]);
      assert SpinScan(ls[..i + 1]) == SpinStep(before, line, i);
      if !line.hasHash {
        var iLine := line.toks;
        if |iLine| > 0 {
          tkpoint := tkpoint + [iLine[0]];
          if |iLine| < 3 {
            r := Err(ShortDataLine(i));
            SpinScanErrorSticks(ls, i + 1, r.error);
            return;
          }
          if iLine[2] == "1" {
            energyUp := energyUp + [iLine[1]];
            kpointUp := kpointUp + [iLine[0]];
          }
          if iLine[2] == "2" {
            energyDown := energyDown + [iLine[1]];
            kpointDown := kpointDown + [iLine[0]];
          }
        }
      }
      if line.isHeader {
        var c := ParseCounts(line.toks, i);
        if c.Err? {
          r := Err(c.error);
          SpinScanErrorSticks(ls, i + 1, r.error);
          return;
        }
        counts := Some(c.value);
      }
    }
    assert ls[..|lines|] == ls;
    r := Ok(SpinState(tkpoint, energyUp, kpointUp, energyDown, kpointDown, counts));
  }

  lemma {:induction false} SpinScanErrorSticks(ls: seq<OutputLine>, i: nat, e: BandError)
    requires i <= |ls|
    requires SpinScan(ls[..i]) == Err(e)
    ensures SpinScan(ls) == Err(e)
    decreases |ls| - i
  {
    if i < |ls| {
      assert ls[..i + 1][..i] == ls[..i];
      SpinScanErrorSticks(ls, i + 1, e);
    } else {
      assert ls[..i] == ls;
    }
  }

  // ---------------------------------------------------------------------
  // Cutting a channel into bands (lines 121-124 and 156-159)
  // ---------------------------------------------------------------------

  lemma {:induction false} MulLe(c: nat, a: nat, b: nat)
    requires a <= b
    ensures c * a <= c * b
    decreases b - a
  {
    if a < b {
      MulLe(c, a, b - 1);
      assert c * b == c * (b - 1) + c;
    }
  }

  /** Chunk `i` of `len div numbands` entries lies within `len`. */
  lemma ChunkFits(len: nat, numbands: nat, i: nat)
    requires i < numbands
    ensures var c := len / numbands; 0 <= c * i <= c * (i + 1) <= len
  {
    var c := len / numbands;
    assert c * numbands + len % numbands == len;
    MulLe(c, i, i + 1);
    MulLe(c, i + 1, numbands);
  }

  /** Band `i` of `numbands`: the `i`-th chunk of `|s| div numbands` entries. */
  function Slices<T>(s: seq<T>, numbands: nat): (r: seq<seq<T>>)
    requires numbands > 0
    ensures |r| == numbands
  {
    var c := |s| / numbands;
    seq(numbands, i requires 0 <= i < numbands =>
      ChunkFits(|s|, numbands, i);
      s[c * i..c * (i + 1)])
  }

  /** The bands are consecutive chunks of the same length that together cover
      the longest prefix made of whole chunks; what is dropped is shorter than
      one chunk per band. */
  lemma SlicesCover<T>(s: seq<T>, numbands: nat)
    requires numbands > 0
    ensures var c := |s| / numbands; var bands := Slices(s, numbands);
      (forall i :: 0 <= i < numbands ==> |bands[i]| == c) &&
      Flatten(bands) == s[..c * numbands] &&
      c * numbands <= |s| < c * numbands + numbands
  {
    var c := |s| / numbands;
    assert c * numbands + |s| % numbands == |s|;
    var bands := Slices(s, numbands);
    forall i | 0 <= i < numbands
      ensures |bands[i]| == c
    {
      ChunkFits(|s|, numbands, i);
    }
    FlattenChunks(s, numbands, numbands);
    assert bands[..numbands] == bands;
  }

  /** The first `m` bands, one after the other, are the first `m` chunks. */
  lemma {:induction false} FlattenChunks<T>(s: seq<T>, numbands: nat, m: nat)
    requires 0 < numbands && m <= numbands
    ensures var c := |s| / numbands; c * m <= |s| && Flatten(Slices(s, numbands)[..m]) == s[..c * m]
    decreases m
  {
    var c := |s| / numbands;
    if m > 0 {
      ChunkFits(|s|, numbands, m - 1);
      FlattenChunks(s, numbands, m - 1);
      var bands := Slices(s, numbands)[..m];
      assert bands[..m - 1] == Slices(s, numbands)[..m - 1];
      assert c * (m - 1) + c == c * m;
      assert s[..c * m] == s[..c * (m - 1)] + s[c * (m - 1)..c * m];
    }
  }

  /** What the plotting loop slices: no band when `numbands` is negative. */
  function BandSlices<T>(s: seq<T>, numbands: int): seq<seq<T>>
  {
    if numbands <= 0 then [] else Slices(s, numbands)
  }

  /** The slicing loop; the division by zero comes before it. */
  method SliceBands<T>(s: seq<T>, numbands: int) returns (r: Result<seq<seq<T>>, BandError>)
    ensures r == if numbands == 0 then Err(ZeroBands) else Ok(BandSlices(s, numbands))
  {
    if numbands == 0 {
      return Err(ZeroBands);
    }
    var bands: seq<seq<T>> := [];
    if numbands > 0 {
      var c := |s| / numbands;
      for i := 0 to numbands
        invariant bands == Slices(s, numbands)[..i]
      {
        ChunkFits(|s|, numbands, i);
        bands := bands + [s[c * i..c * (i + 1)]];
      }
      assert Slices(s, numbands)[..numbands] == Slices(s, numbands);
    }
    return Ok(bands);
  }

  // ---------------------------------------------------------------------
  // The ticks of the x axis (lines 132, 141-148)
  // ---------------------------------------------------------------------

  /** The points up to and including the first one that compares equal to
      `x`, or all of them when none does. */
  function PrefixUntil<R>(s: seq<R>, x: R, same: (R, R) -> bool): (r: seq<R>)
    decreases |s|
  {
    if s == [] then [] else [s[0]] + if same(s[0], x) then [] else PrefixUntil(s[1..], x, same)
  }

  /** `fbzname_plot`: needs a third point, which ends the list. */
  function Ticks<R>(points: seq<R>, same: (R, R) -> bool): Result<seq<R>, BandError>
  {
    if |points| < 3 then Err(TooFewSymmetryPoints) else Ok(PrefixUntil(points, points[2], same))
  }

  /** The prefix stops at the first point that compares equal to `x` and
      holds no earlier such point. */
  lemma {:induction false} PrefixUntilSpec<R>(s: seq<R>, x: R, same: (R, R) -> bool)
    ensures var r := PrefixUntil(s, x, same);
      r <= s && (s != [] ==> r != []) &&
      (forall k :: 0 <= k < |r| - 1 ==> !same(r[k], x)) &&
      (r == s || same(r[|r| - 1], x))
    decreases |s|
  {
    if s != [] {
      PrefixUntilSpec(s[1..], x, same);
    }
  }

  /** When the third point compares equal to itself, the ticks are at most
      the first three points.  (A NaN there compares unequal to itself and
      the list runs to the end.) */
  lemma {:induction false} TicksAtMostThree<R>(points: seq<R>, same: (R, R) -> bool)
    requires |points| >= 3 && same(points[2], points[2])
    ensures |Ticks(points, same).value| <= 3
  {
    var x := points[2];
    var r := PrefixUntil(points, x, same);
    assert PrefixUntil(points[2..], x, same) == [x];
    assert points[1..][1..] == points[2..];
    assert |PrefixUntil(points[1..], x, same)| <= 2;
  }

  /** The tick loop, with its early `break`. */
  method TickPrefix<R>(points: seq<R>, same: (R, R) -> bool) returns (r: Result<seq<R>, BandError>)
    ensures r == Ticks(points, same)
  {
    if |points| < 3 {
      return Err(TooFewSymmetryPoints);
    }
    var xFinal := points[2];
    var plot: seq<R> := [];
    var pt := 0;
    while pt < |points|
      invariant 0 <= pt <= |points|
      invariant plot + PrefixUntil(points[pt..], xFinal, same) == PrefixUntil(points, xFinal, same)
    {
      ghost var rest := points[pt..];
      assert rest[0] == points[pt] && rest[1..] == points[pt + 1..];
      plot := plot + [points[pt]];
      if same(points[pt], xFinal) {
        assert PrefixUntil(rest, xFinal, same) == [points[pt]];
        assert plot == PrefixUntil(points, xFinal, same);
        break;
      }
      pt := pt + 1;
    }
    if pt == |points| {
      assert points[pt..] == [];
      assert plot + [] == plot;
    }
    r := Ok(plot);
  }

  // ---------------------------------------------------------------------
  // The whole script
  // ---------------------------------------------------------------------

  /** What reaches the plots: the channels cut into bands, the Fermi energy
      token, and the tick positions with the marker names. */
  datatype Plot<R> = Plot(bandsFile: string, fermi: string,
                          upK: seq<seq<string>>, upE: seq<seq<string>>,
                          downK: seq<seq<string>>, downE: seq<seq<string>>,
                          ticks: seq<R>, names: seq<string>)

  function Positions<R>(markers: seq<Marker>, toFloat: string -> R): seq<R>
  {
    Map(markers, (m: Marker) => toFloat(m.point))
  }

  function Names(markers: seq<Marker>): seq<string>
  {
    Map(markers, (m: Marker) => m.name)
  }

  /** The script from the structure file to the plots, in the order in which
      it can raise.  `bandsLines` are the lines of the file named by the
      structure file and `outputLines` those that `gnubands` writes. */
  function PlotBands<R>(fdfLines: seq<string>, bandsLines: seq<string>, outputLines: seq<string>,
                        toFloat: string -> R, same: (R, R) -> bool): Result<Plot<R>, BandError>
  {
    match BandsFileName(fdfLines)
    case Err(e) => Err(e)
    case Ok(name) =>
      match HeaderOf(bandsLines)
      case Err(e) => Err(e)
      case Ok(h) =>
        if h.efermi == [] then Err(NoFermiEnergy)
        else
          match SymmetryPoints(bandsLines)
          case Err(e) => Err(e)
          case Ok(markers) =>
            if h.minE == [] then Err(NoEnergyRange)
            else
              match SpinScan(ReadOutputs(outputLines))
              case Err(e) => Err(e)
              case Ok(st) =>
                if st.counts.None? then Err(NoCountsHeader)
                else if st.counts.value.bands == 0 then Err(ZeroBands)
                else
                  match Ticks(Positions(markers, toFloat), same)
                  case Err(e) => Err(e)
                  case Ok(ticks) =>
                    var nb := st.counts.value.bands;
                    Ok(Plot(name, h.efermi[0],
                            BandSlices(st.kpointUp, nb), BandSlices(st.energyUp, nb),
                            BandSlices(st.kpointDown, nb), BandSlices(st.energyDown, nb),
                            ticks, Names(markers)))
  }

  /** The script, one step after the other. */
  method RunPlotBands<R>(fdfLines: seq<string>, bandsLines: seq<string>, outputLines: seq<string>,
                         toFloat: string -> R, same: (R, R) -> bool) returns (r: Result<Plot<R>, BandError>)
    ensures r == PlotBands(fdfLines, bandsLines, outputLines, toFloat, same)
  {
    var name := FindBandsFile(fdfLines);
    if name.Err? {
      return Err(name.error);
    }
    var h := ReadHeader(bandsLines);
    if h.Err? {
      return Err(h.error);
    }
    if h.value.efermi == [] {
      return Err(NoFermiEnergy);
    }
    var markers := ReadSymmetryPoints(bandsLines);
    if markers.Err? {
      return Err(markers.error);
    }
    if h.value.minE == [] {
      return Err(NoEnergyRange);
    }
    var st := SplitSpins(outputLines);
    if st.Err? {
      return Err(st.error);
    }
    if st.value.counts.None? {
      return Err(NoCountsHeader);
    }
    var nb := st.value.counts.value.bands;
    var upK := SliceBands(st.value.kpointUp, nb);
    if upK.Err? {
      return Err(upK.error);
    }
    var upE := SliceBands(st.value.energyUp, nb);
    var ticks := TickPrefix(Positions(markers.value, toFloat), same);
    if ticks.Err? {
      return Err(ticks.error);
    }
    var downK := SliceBands(st.value.kpointDown, nb);
    var downE := SliceBands(st.value.energyDown, nb);
    r := Ok(Plot(name.value, h.value.efermi[0], upK.value, upE.value, downK.value, downE.value,
                 ticks.value, Names(markers.value)));
  }
}
