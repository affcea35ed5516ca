/**
 Mapping a tag onto a two-level genre tree from recorded choice distributions: a beam search whose
 width-three form needs every request the greedy form needs and never scores worse.
 */
module TagBeam {
  import opened Identifiers
  import opened Sorting

  const MODEL := "jev-1.12"
  const NONE_LABEL := "__NONE__"
  const GENRE_ONLY := "__GENRE_ONLY__"

  type Path = seq<string>

  /** The genres in the order they were loaded, and each genre's styles. */
  datatype Taxonomy = Taxonomy(genres: seq<string>, styles: map<string, seq<string>>)

  /** Everything a recorded answer depends on. */
  datatype Key = Key(tag: string, parent: Path, options: seq<string>, sha: string)

  /** A recorded probability: a real, a non-finite float, a JSON boolean, or no number at all. */
  datatype Number = Finite(value: real) | NotFinite | Flag(value01: bool) | NotNumber

  datatype Capture = Capture(model: string, probabilities: map<string, Number>)

  datatype Candidate = Candidate(path: Path, logp: real, decisions: nat)

  datatype Scored = Scored(path: Path, score: real)

  datatype Fault = BadWidth | MissingCapture | WrongModel | BadDistribution | BadSum

  datatype Result<+T> = Ok(value: T) | Err(fault: Fault)

  /** One replay: the tag, the tree, the recorded answers, and the floating-point functions. */
  datatype Replay = Replay(
    tag: string,
    tree: Taxonomy,
    captures: map<Key, Capture>,
    sha: string,
    log: real -> real,
    exp: real -> real)

  const ROOT := Candidate([], 0.0, 0)

  // ------------------------------------------------------------ the recorded answers

  function Children(tree: Taxonomy, path: Path): seq<string> {
    if path == [] then SortBy(tree.genres, Precedes) + [NONE_LABEL]
    else if |path| == 1 && path[0] != NONE_LABEL then
      (if path[0] in tree.styles then SortBy(tree.styles[path[0]], Precedes) + [GENRE_ONLY] else [])
    else []
  }

  predicate ModelOk(model: string) { model == MODEL || MODEL + "." <= model }

  function Value(n: Number): real {
    match n
    case Finite(value) => value
    case Flag(b) => if b then 1.0 else 0.0
    case _ => 0.0
  }

  predicate Probability(n: Number) {
    match n
    case Finite(value) => 0.0 <= value <= 1.0
    case Flag(_) => true
    case _ => false
  }

  /** The sum over the distinct options. */
  function SumOver(options: seq<string>, probabilities: map<string, Number>): real {
    if options == [] then 0.0
    else
      var n := |options| - 1;
      SumOver(options[..n], probabilities)
      + (if options[n] in options[..n] || options[n] !in probabilities then 0.0 else Value(probabilities[options[n]]))
  }

  function Abs(x: real): real { if x < 0.0 then -x else x }

  function Max(a: real, b: real): real { if a < b then b else a }

  /** `math.isclose(total, 1.0, abs_tol=1e-6)`. */
  predicate CloseToOne(total: real) {
    Abs(total - 1.0) <= Max(0.000000001 * Max(Abs(total), 1.0), 0.000001)
  }

  predicate Covers(options: seq<string>, probabilities: map<string, Number>) {
    (forall o | o in options :: o in probabilities) && (forall o | o in probabilities :: o in options)
  }

  /** What replay accepts of a recorded answer. */
  function Checked(options: seq<string>, capture: Capture): Result<map<string, Number>> {
    if !ModelOk(capture.model) then Err(WrongModel)
    else if !Covers(options, capture.probabilities)
        || (exists o :: o in capture.probabilities && !Probability(capture.probabilities[o]))
    then Err(BadDistribution)
    else if !CloseToOne(SumOver(options, capture.probabilities)) then Err(BadSum)
    else Ok(capture.probabilities)
  }

  /** Model names accepted: the pinned one, and any that continues it after a dot. */
  lemma ModelOkMeans(model: string)
    ensures ModelOk(model) <==> model == "jev-1.12" || exists rest: string :: model == "jev-1.12." + rest
  {
    var stem := "jev-1.12.";
    assert MODEL + "." == stem;
    if stem <= model { assert model == stem + model[|stem|..]; }
  }

  lemma CloseToOneMeans(total: real)
    ensures CloseToOne(total) <==> 0.999999 <= total <= 1.000001
  {}

  /** What one recorded probability stands for; a JSON boolean counts as 1 or 0. */
  lemma SumOfOne(option: string, probabilities: map<string, Number>)
    requires option in probabilities
    ensures SumOver([option], probabilities) ==
              match probabilities[option]
              case Finite(x) => x
              case Flag(b) => (if b then 1.0 else 0.0)
              case NotFinite => 0.0
              case NotNumber => 0.0
  {
    assert [option][..0] == [];
    assert SumOver([option][..0], probabilities) == 0.0;
  }

  /** The sum takes each option once: lists without a common option add up, and a repeated option adds nothing. */
  lemma {:induction false} SumsAdd(a: seq<string>, b: seq<string>, probabilities: map<string, Number>)
    requires forall o | o in a :: o !in b
    ensures SumOver(a + b, probabilities) == SumOver(a, probabilities) + SumOver(b, probabilities)
  {
    if b == [] {
      assert a + b == a;
    } else {
      var n := |b| - 1;
      assert (a + b)[..|a + b| - 1] == a + b[..n];
      assert b == b[..n] + [b[n]];
      SumsAdd(a, b[..n], probabilities);
    }
  }

  lemma RepeatAddsNothing(a: seq<string>, option: string, probabilities: map<string, Number>)
    requires option in a
    ensures SumOver(a + [option], probabilities) == SumOver(a, probabilities)
  {
    assert (a + [option])[..|a|] == a;
  }

  /** A number between 0 and 1, or a JSON boolean. */
  ghost predicate InUnit(n: Number) { n.Flag? || (n.Finite? && 0.0 <= n.value <= 1.0) }

  /** Replay accepts an answer exactly when it is the pinned model's, covers the options and sums to one. */
  lemma AcceptedExactly(options: seq<string>, capture: Capture)
    ensures Checked(options, capture).Ok? <==>
              && ModelOk(capture.model) && capture.probabilities.Keys == (set o | o in options)
              && (forall o | o in capture.probabilities :: InUnit(capture.probabilities[o]))
              && 0.999999 <= SumOver(options, capture.probabilities) <= 1.000001
    ensures Checked(options, capture).Ok? ==> Checked(options, capture).value == capture.probabilities
  {
    CloseToOneMeans(SumOver(options, capture.probabilities));
    assert Covers(options, capture.probabilities) <==> capture.probabilities.Keys == set o | o in options;
    forall o | o in capture.probabilities
      ensures InUnit(capture.probabilities[o]) <==> Probability(capture.probabilities[o])
    {
      match capture.probabilities[o] case Finite(_) => case NotFinite => case Flag(_) => case NotNumber =>
    }
  }

  /** The options of a level: the labels in order, the reserved one last. */
  lemma ChildrenInOrder(tree: Taxonomy, path: Path)
    ensures path == [] ==> SortedThen(Children(tree, path), tree.genres, NONE_LABEL)
    ensures |path| == 1 && path[0] != NONE_LABEL && path[0] in tree.styles ==>
              SortedThen(Children(tree, path), tree.styles[path[0]], GENRE_ONLY)
    ensures |path| > 1 || path == [NONE_LABEL] ==> Children(tree, path) == []
  {
    LabelsAreSorted(tree.genres);
    if |path| == 1 && path[0] in tree.styles { LabelsAreSorted(tree.styles[path[0]]); }
  }

  ghost predicate SortedThen(options: seq<string>, labels: seq<string>, reserved: string) {
    && |options| == |labels| + 1 && options[|labels|] == reserved
    && Sorted(options[..|labels|], Precedes) && multiset(options[..|labels|]) == multiset(labels)
  }

  lemma LabelsAreSorted(labels: seq<string>)
    ensures Sorted(SortBy(labels, Precedes), Precedes) && multiset(SortBy(labels, Precedes)) == multiset(labels)
    ensures |SortBy(labels, Precedes)| == |labels|
  {
    forall x ensures !Precedes(x, x) { PrecedesIrreflexive(x); }
    forall x, y, z | Precedes(x, y) && Precedes(y, z) ensures Precedes(x, z) { PrecedesTransitive(x, y, z); }
    SortBySorts(labels, Precedes);
    SortByKeeps(labels, Precedes);
  }

  // ------------------------------------------------------------ the search

  function Extend(log: real -> real, c: Candidate, option: string, p: real): Candidate {
    Candidate(c.path + [option], c.logp + log(p), c.decisions + 1)
  }

  /** One candidate's continuations over the first `k` options, skipping impossible ones. */
  function Continuations(log: real -> real, c: Candidate, options: seq<string>, probabilities: map<string, Number>,
                         k: nat): seq<Candidate>
    requires k <= |options| && Covers(options, probabilities)
  {
    if k == 0 then []
    else
      var p := Value(probabilities[options[k - 1]]);
      Continuations(log, c, options, probabilities, k - 1)
          + (if p == 0.0 then [] else [Extend(log, c, options[k - 1], p)])
  }

  function KeyFor(e: Replay, path: Path): Key { Key(e.tag, path, Children(e.tree, path), e.sha) }

  function ExpandOne(e: Replay, c: Candidate): Result<seq<Candidate>> {
    var options := Children(e.tree, c.path);
    if |options| == 0 then Ok([c])
    else if |options| == 1 then Ok([c.(path := c.path + [options[0]])])
    else if KeyFor(e, c.path) !in e.captures then Err(MissingCapture)
    else
      match Checked(options, e.captures[KeyFor(e, c.path)])
      case Err(fault) => Err(fault)
      case Ok(probabilities) => Ok(Continuations(e.log, c, options, probabilities, |options|))
  }

  function Expand(e: Replay, cs: seq<Candidate>): Result<seq<Candidate>> {
    if cs == [] then Ok([])
    else
      match Expand(e, cs[..|cs| - 1])
      case Err(fault) => Err(fault)
      case Ok(front) =>
        match ExpandOne(e, cs[|cs| - 1])
        case Err(fault) => Err(fault)
        case Ok(last) => Ok(front + last)
  }

  function Mean(c: Candidate): real { if c.decisions == 0 then 0.0 else c.logp / c.decisions as real }

  predicate PathBefore(a: Path, b: Path) {
    if b == [] then false
    else if a == [] then true
    else Precedes(a[0], b[0]) || (a[0] == b[0] && PathBefore(a[1..], b[1..]))
  }

  /** Higher mean first, then the smaller path. */
  predicate Ahead(a: Candidate, b: Candidate) {
    Mean(a) > Mean(b) || (Mean(a) == Mean(b) && PathBefore(a.path, b.path))
  }

  function Best(cs: seq<Candidate>, width: nat): seq<Candidate> {
    var sorted := SortBy(cs, Ahead);
    if |sorted| <= width then sorted else sorted[..width]
  }

  function Level(e: Replay, cs: seq<Candidate>, width: nat): Result<seq<Candidate>> {
    match Expand(e, cs)
    case Err(fault) => Err(fault)
    case Ok(expanded) => Ok(Best(expanded, width))
  }

  function ScoreOf(exp: real -> real, c: Candidate): Scored {
    Scored(c.path, if c.decisions == 0 then 1.0 else exp(c.logp / c.decisions as real))
  }

  function Scores(exp: real -> real, cs: seq<Candidate>): (r: seq<Scored>)
    ensures |r| == |cs| && forall i | 0 <= i < |r| :: r[i] == ScoreOf(exp, cs[i])
  {
    seq(|cs|, i requires 0 <= i < |cs| => ScoreOf(exp, cs[i]))
  }

  /** The candidates left after both levels. */
  function Survivors(e: Replay, width: nat): Result<seq<Candidate>> {
    match Level(e, [ROOT], width)
    case Err(fault) => Err(fault)
    case Ok(first) => Level(e, first, width)
  }

  function Traverse(e: Replay, width: nat): Result<seq<Scored>> {
    if width != 1 && width != 3 then Err(BadWidth)
    else
      match Survivors(e, width)
      case Err(fault) => Err(fault)
      case Ok(cs) => Ok(Scores(e.exp, cs))
  }

  // ------------------------------------------------------------ what a score is

  /** The label at position `i` was one of several options. */
  ghost predicate Choice(e: Replay, path: Path, i: nat)
    requires i < |path|
  {
    |Children(e.tree, path[..i])| > 1
  }

  /** The answer recorded for the choice at `i` gives the label a probability other than zero. */
  ghost predicate Recorded(e: Replay, path: Path, i: nat)
    requires i < |path|
  {
    var key := Key(e.tag, path[..i], Children(e.tree, path[..i]), e.sha);
    && key in e.captures && path[i] in e.captures[key].probabilities
    && Value(e.captures[key].probabilities[path[i]]) != 0.0
  }

  ghost function Probable(e: Replay, path: Path, i: nat): real
    requires i < |path| && Recorded(e, path, i)
  {
    Value(e.captures[Key(e.tag, path[..i], Children(e.tree, path[..i]), e.sha)].probabilities[path[i]])
  }

  ghost predicate AllRecorded(e: Replay, path: Path) {
    forall i: nat | i < |path| && Choice(e, path, i) :: Recorded(e, path, i)
  }

  /** The logarithms of the recorded probabilities of the first `n` labels, over the choices only. */
  ghost function LogSum(e: Replay, path: Path, n: nat): real
    requires n <= |path| && AllRecorded(e, path)
  {
    if n == 0 then 0.0
    else LogSum(e, path, n - 1) + (if Choice(e, path, n - 1) then e.log(Probable(e, path, n - 1)) else 0.0)
  }

  ghost function ChoicesOf(e: Replay, path: Path, n: nat): nat
    requires n <= |path|
  {
    if n == 0 then 0 else ChoicesOf(e, path, n - 1) + (if Choice(e, path, n - 1) then 1 else 0)
  }

  /** The exponential of the mean logarithm of what was recorded for the choices on the path, or 1 without any. */
  ghost function PathScore(e: Replay, path: Path): real
    requires AllRecorded(e, path)
  {
    var n := ChoicesOf(e, path, |path|);
    if n == 0 then 1.0 else e.exp(LogSum(e, path, |path|) / n as real)
  }

  /** The candidate carries its path's own sum and count. */
  ghost predicate Tracks(e: Replay, c: Candidate) {
    && AllRecorded(e, c.path)
    && c.logp == LogSum(e, c.path, |c.path|) && c.decisions == ChoicesOf(e, c.path, |c.path|)
  }

  lemma {:induction false} PrefixScores(e: Replay, path: Path, o: string, n: nat)
    requires n <= |path| && AllRecorded(e, path) && AllRecorded(e, path + [o])
    ensures LogSum(e, path + [o], n) == LogSum(e, path, n) && ChoicesOf(e, path + [o], n) == ChoicesOf(e, path, n)
  {
    if n > 0 {
      PrefixScores(e, path, o, n - 1);
      assert (path + [o])[..n - 1] == path[..n - 1];
    }
  }

  lemma LongerIsRecorded(e: Replay, path: Path, o: string)
    requires AllRecorded(e, path)
    requires (path + [o])[..|path|] == path
    requires |Children(e.tree, path)| > 1 ==> Recorded(e, path + [o], |path|)
    ensures AllRecorded(e, path + [o])
  {
    var longer := path + [o];
    forall i: nat | i < |longer| && Choice(e, longer, i) ensures Recorded(e, longer, i) {
      if i < |path| {
        assert longer[..i] == path[..i];
        assert Choice(e, path, i);
      }
    }
  }

  lemma ExpandedTracks(e: Replay, c: Candidate, x: Candidate)
    requires Tracks(e, c) && ExpandOne(e, c).Ok? && x in ExpandOne(e, c).value
    ensures Tracks(e, x)
  {
    var options := Children(e.tree, c.path);
    if |options| == 1 {
      assert (c.path + [options[0]])[..|c.path|] == c.path;
      LongerIsRecorded(e, c.path, options[0]);
      PrefixScores(e, c.path, options[0], |c.path|);
    } else if |options| > 1 {
      var probabilities := Checked(options, e.captures[KeyFor(e, c.path)]).value;
      ContinuationsHave(e.log, c, options, probabilities, |options|, x);
      var i :| 0 <= i < |options| && Value(probabilities[options[i]]) != 0.0
               && x == Extend(e.log, c, options[i], Value(probabilities[options[i]]));
      assert (c.path + [options[i]])[..|c.path|] == c.path && (c.path + [options[i]])[|c.path|] == options[i];
      LongerIsRecorded(e, c.path, options[i]);
      PrefixScores(e, c.path, options[i], |c.path|);
    }
  }

  lemma LevelTracks(e: Replay, cs: seq<Candidate>, width: nat)
    requires width > 0 && (forall c | c in cs :: Tracks(e, c)) && Level(e, cs, width).Ok?
    ensures forall x | x in Level(e, cs, width).value :: Tracks(e, x)
  {
    BestMeans(Expand(e, cs).value, width);
    forall x | x in Expand(e, cs).value ensures Tracks(e, x) {
      ExpandHas(e, cs, x);
      var i :| 0 <= i < |cs| && x in ExpandOne(e, cs[i]).value;
      ExpandedTracks(e, cs[i], x);
    }
  }

  /** Each result's score is its path's, from what the captures record for the choices along it. */
  lemma ScoresAreRecorded(e: Replay, width: nat)
    requires Traverse(e, width).Ok?
    ensures forall i | 0 <= i < |Traverse(e, width).value| ::
              var r := Traverse(e, width).value[i]; AllRecorded(e, r.path) && r.score == PathScore(e, r.path)
  {
    var cs := [ROOT];
    assert forall c | c in cs :: Tracks(e, c);
    LevelTracks(e, cs, width);
    LevelTracks(e, Level(e, cs, width).value, width);
    var last := Survivors(e, width).value;
    forall i | 0 <= i < |last|
      ensures AllRecorded(e, last[i].path) && ScoreOf(e.exp, last[i]).score == PathScore(e, last[i].path)
    {
      assert last[i] in last;
    }
  }

  /** The search as it runs: two rounds over a shrinking list of candidates. */
  method RunTraverse(e: Replay, width: nat) returns (r: Result<seq<Scored>>)
    ensures r == Traverse(e, width)
    ensures r.Ok? ==> forall i | 0 <= i < |r.value| ::
                        AllRecorded(e, r.value[i].path) && r.value[i].score == PathScore(e, r.value[i].path)
  {
    if Traverse(e, width).Ok? { ScoresAreRecorded(e, width); }
    if width != 1 && width != 3 {
      return Err(BadWidth);
    }
    var candidates := [ROOT];
    ghost var first := Level(e, [ROOT], width);
    for round := 0 to 2
      invariant round == 0 ==> candidates == [ROOT]
      invariant round == 1 ==> first == Ok(candidates)
      invariant round == 2 ==> Survivors(e, width) == Ok(candidates)
    {
      var expanded := RunRound(e, candidates);
      if expanded.Err? {
        return Err(expanded.fault);
      }
      candidates := Best(expanded.value, width);
    }
    r := Ok(Scores(e.exp, candidates));
  }

  method RunRound(e: Replay, candidates: seq<Candidate>) returns (r: Result<seq<Candidate>>)
    ensures r == Expand(e, candidates)
  {
    var expanded: seq<Candidate> := [];
    for i := 0 to |candidates|
      invariant Expand(e, candidates[..i]) == Ok(expanded)
    {
      var step := RunExpand(e, candidates[i]);
      assert candidates[..i + 1][..i] == candidates[..i];
      if step.Err? {
        ExpandFails(e, candidates, i);
        return Err(step.fault);
      }
      expanded := expanded + step.value;
    }
    assert candidates[..|candidates|] == candidates;
    r := Ok(expanded);
  }

  method RunExpand(e: Replay, c: Candidate) returns (r: Result<seq<Candidate>>)
    ensures r == ExpandOne(e, c)
  {
    var options := Children(e.tree, c.path);
    if |options| == 0 {
      return Ok([c]);
    }
    if |options| == 1 {
      return Ok([c.(path := c.path + [options[0]])]);
    }
    var key := Key(e.tag, c.path, options, e.sha);
    if key !in e.captures {
      return Err(MissingCapture);
    }
    var checked := Checked(options, e.captures[key]);
    if checked.Err? {
      return Err(checked.fault);
    }
    var next := RunContinuations(e.log, c, options, checked.value);
    r := Ok(next);
  }

  method RunContinuations(log: real -> real, c: Candidate, options: seq<string>, probabilities: map<string, Number>)
    returns (r: seq<Candidate>)
    requires Covers(options, probabilities)
    ensures r == Continuations(log, c, options, probabilities, |options|)
  {
    r := [];
    for i := 0 to |options|
      invariant r == Continuations(log, c, options, probabilities, i)
    {
      var p := Value(probabilities[options[i]]);
      if p == 0.0 {
        continue;
      }
      r := r + [Candidate(c.path + [options[i]], c.logp + log(p), c.decisions + 1)];
    }
  }

  /** The first candidate that fails decides the failure of the round. */
  lemma {:induction false} ExpandFails(e: Replay, cs: seq<Candidate>, i: nat)
    requires i < |cs| && Expand(e, cs[..i]).Ok? && ExpandOne(e, cs[i]).Err?
    ensures Expand(e, cs) == Err(ExpandOne(e, cs[i]).fault)
  {
    var n := |cs| - 1;
    if i < n {
      assert cs[..n][..i] == cs[..i];
      ExpandFails(e, cs[..n], i);
    }
  }

  // ------------------------------------------------------------ orders

  lemma {:induction false} PathBeforeIrreflexive(a: Path)
    ensures !PathBefore(a, a)
  {
    if a != [] {
      PrecedesIrreflexive(a[0]);
      PathBeforeIrreflexive(a[1..]);
    }
  }

  lemma {:induction false} PathBeforeTransitive(a: Path, b: Path, c: Path)
    requires PathBefore(a, b) && PathBefore(b, c)
    ensures PathBefore(a, c)
  {
    if a != [] {
      if Precedes(a[0], b[0]) && Precedes(b[0], c[0]) {
        PrecedesTransitive(a[0], b[0], c[0]);
      } else if a[0] == b[0] && b[0] == c[0] && !Precedes(a[0], b[0]) && !Precedes(b[0], c[0]) {
        PathBeforeTransitive(a[1..], b[1..], c[1..]);
      }
    }
  }

  lemma AheadIsStrict()
    ensures StrictOrder(Ahead)
  {
    forall x ensures !Ahead(x, x) { PathBeforeIrreflexive(x.path); }
    forall x, y, z | Ahead(x, y) && Ahead(y, z) ensures Ahead(x, z) {
      if Mean(x) == Mean(y) == Mean(z) { PathBeforeTransitive(x.path, y.path, z.path); }
    }
  }

  // ------------------------------------------------------------ every survivor is a tree path

  /** A loaded taxonomy with distinct labels and no reserved one. */
  ghost predicate DistinctLabels(tree: Taxonomy) {
    && NoRepeats(tree.genres) && NONE_LABEL !in tree.genres
    && (forall g :: g in tree.genres <==> g in tree.styles)
    && (forall g | g in tree.styles :: NoRepeats(tree.styles[g]) && NONE_LABEL !in tree.styles[g]
          && GENRE_ONLY !in tree.styles[g])
  }

  /** A label of the first level. */
  ghost predicate TopPath(tree: Taxonomy, p: Path) { |p| == 1 && (p[0] == NONE_LABEL || p[0] in tree.genres) }

  /** NONE, or a genre with one of its styles or none. */
  ghost predicate TreePath(tree: Taxonomy, p: Path) {
    p == [NONE_LABEL] || (|p| == 2 && p[0] in tree.genres && p[0] in tree.styles
                          && (p[1] == GENRE_ONLY || p[1] in tree.styles[p[0]]))
  }

  ghost predicate DistinctPaths(cs: seq<Candidate>) {
    forall i, j | 0 <= i < j < |cs| :: cs[i].path != cs[j].path
  }

  lemma ChildrenAreDistinct(tree: Taxonomy, path: Path)
    requires DistinctLabels(tree)
    ensures NoRepeats(Children(tree, path))
  {
    if path == [] {
      SortKeepsDistinct(tree.genres, Precedes);
      SortByKeeps(tree.genres, Precedes);
    } else if |path| == 1 && path[0] in tree.styles {
      SortKeepsDistinct(tree.styles[path[0]], Precedes);
      SortByKeeps(tree.styles[path[0]], Precedes);
    }
  }

  lemma ChildrenHave(tree: Taxonomy, path: Path, o: string)
    requires DistinctLabels(tree)
    ensures path == [] ==> (o in Children(tree, path) <==> o == NONE_LABEL || o in tree.genres)
    ensures |path| == 1 && path[0] in tree.genres ==>
            (o in Children(tree, path) <==> o == GENRE_ONLY || o in tree.styles[path[0]])
    ensures path == [NONE_LABEL] ==> Children(tree, path) == []
  {
    if path == [] {
      SortByKeeps(tree.genres, Precedes);
    } else if |path| == 1 && path[0] in tree.styles {
      SortByKeeps(tree.styles[path[0]], Precedes);
    }
  }

  /** `x` continues `c` by one of the first `k` options, a possible one. */
  ghost predicate Continues(log: real -> real, c: Candidate, options: seq<string>, probabilities: map<string, Number>,
                            k: nat, x: Candidate)
    requires k <= |options| && Covers(options, probabilities)
  {
    exists i :: 0 <= i < k && Value(probabilities[options[i]]) != 0.0
        && x == Extend(log, c, options[i], Value(probabilities[options[i]]))
  }

  lemma {:induction false} ContinuationsHave(log: real -> real, c: Candidate, options: seq<string>,
                                             probabilities: map<string, Number>, k: nat, x: Candidate)
    requires k <= |options| && Covers(options, probabilities)
    ensures x in Continuations(log, c, options, probabilities, k) <==> Continues(log, c, options, probabilities, k, x)
  {
    if k > 0 {
      ContinuationsHave(log, c, options, probabilities, k - 1, x);
      if Continues(log, c, options, probabilities, k - 1, x) {
        var i :| 0 <= i < k - 1 && Value(probabilities[options[i]]) != 0.0
                 && x == Extend(log, c, options[i], Value(probabilities[options[i]]));
        assert options[i] in probabilities;
      }
    }
  }

  /** The continuations are exactly the possible options, each once and in order. */
  lemma {:induction false} ContinuationsMean(log: real -> real, c: Candidate, options: seq<string>,
                                             probabilities: map<string, Number>, k: nat)
    requires k <= |options| && Covers(options, probabilities) && NoRepeats(options)
    ensures var r := Continuations(log, c, options, probabilities, k);
            && (forall x | x in r :: Continues(log, c, options, probabilities, k, x))
            && DistinctPaths(r)
            && (r == [] <==> forall i | 0 <= i < k :: Value(probabilities[options[i]]) == 0.0)
  {
    if k > 0 {
      ContinuationsMean(log, c, options, probabilities, k - 1);
      var front := Continuations(log, c, options, probabilities, k - 1);
      var r := Continuations(log, c, options, probabilities, k);
      forall i | 0 <= i < |front| ensures front[i].path != c.path + [options[k - 1]] {
        assert front[i] in front;
        var j :| 0 <= j < k - 1 && Value(probabilities[options[j]]) != 0.0
                 && front[i] == Extend(log, c, options[j], Value(probabilities[options[j]]));
        assert options[j] != options[k - 1];
        assert (c.path + [options[j]])[|c.path|] == options[j]
            && (c.path + [options[k - 1]])[|c.path|] == options[k - 1];
      }
      forall x | x in r ensures Continues(log, c, options, probabilities, k, x) {
        if x in front {
          var i :| 0 <= i < k - 1 && Value(probabilities[options[i]]) != 0.0
                   && x == Extend(log, c, options[i], Value(probabilities[options[i]]));
        }
      }
    }
  }

  lemma {:induction false} SumOfZeros(options: seq<string>, probabilities: map<string, Number>)
    requires forall i | 0 <= i < |options| :: options[i] in probabilities ==> Value(probabilities[options[i]]) == 0.0
    ensures SumOver(options, probabilities) == 0.0
  {
    if options != [] {
      SumOfZeros(options[..|options| - 1], probabilities);
    }
  }

  /** How a continuation relates to its parent: one label longer, or a closed path kept as it is. */
  ghost predicate Grown(e: Replay, c: Candidate, x: Candidate) {
    (Children(e.tree, c.path) == [] && x == c) || exists o :: o in Children(e.tree, c.path) && x.path == c.path + [o]
  }

  lemma AnswersMean(e: Replay, c: Candidate, options: seq<string>, probabilities: map<string, Number>)
    requires options == Children(e.tree, c.path) && options != [] && NoRepeats(options)
    requires Covers(options, probabilities) && CloseToOne(SumOver(options, probabilities))
    ensures var r := Continuations(e.log, c, options, probabilities, |options|);
            r != [] && DistinctPaths(r) && forall x | x in r :: Grown(e, c, x)
  {
    ContinuationsMean(e.log, c, options, probabilities, |options|);
    var r := Continuations(e.log, c, options, probabilities, |options|);
    if r == [] { SumOfZeros(options, probabilities); }
    forall x | x in r ensures Grown(e, c, x) {
      var i :| 0 <= i < |options| && Value(probabilities[options[i]]) != 0.0
               && x == Extend(e.log, c, options[i], Value(probabilities[options[i]]));
      assert options[i] in options;
    }
  }

  lemma ExpandOneMeans(e: Replay, c: Candidate)
    requires DistinctLabels(e.tree) && ExpandOne(e, c).Ok?
    ensures var r := ExpandOne(e, c).value;
            r != [] && DistinctPaths(r) && forall x | x in r :: Grown(e, c, x)
  {
    var options := Children(e.tree, c.path);
    if |options| == 1 {
      assert options[0] in options;
    } else if |options| > 1 {
      ChildrenAreDistinct(e.tree, c.path);
      AnswersMean(e, c, options, Checked(options, e.captures[KeyFor(e, c.path)]).value);
    }
  }

  /** A round's continuations are the candidates' own, in order. */
  lemma {:induction false} ExpandHas(e: Replay, cs: seq<Candidate>, x: Candidate)
    requires Expand(e, cs).Ok?
    ensures forall i | 0 <= i < |cs| :: ExpandOne(e, cs[i]).Ok?
    ensures x in Expand(e, cs).value <==> exists i :: 0 <= i < |cs| && x in ExpandOne(e, cs[i]).value
  {
    if cs != [] {
      var n := |cs| - 1;
      ExpandHas(e, cs[..n], x);
      forall i | 0 <= i < |cs| ensures ExpandOne(e, cs[i]).Ok? {
        if i < n { assert cs[..n][i] == cs[i]; }
      }
      if x in Expand(e, cs[..n]).value {
        var i :| 0 <= i < n && x in ExpandOne(e, cs[..n][i]).value;
        assert x in ExpandOne(e, cs[i]).value;
      }
      if exists i :: 0 <= i < n && x in ExpandOne(e, cs[i]).value {
        var i :| 0 <= i < n && x in ExpandOne(e, cs[i]).value;
        assert x in ExpandOne(e, cs[..n][i]).value;
      }
    }
  }

  lemma BestMeans(cs: seq<Candidate>, width: nat)
    requires width > 0
    ensures var r := Best(cs, width);
            && Sorted(r, Ahead) && |r| <= width && (r == [] <==> cs == [])
            && (forall x | x in r :: x in cs)
            && (DistinctPaths(cs) ==> DistinctPaths(r))
            && (r != [] ==> r[0] in cs && forall x | x in cs :: !Ahead(x, r[0]))
  {
    AheadIsStrict();
    SortBySorts(cs, Ahead);
    SortByKeeps(cs, Ahead);
    var sorted, r := SortBy(cs, Ahead), Best(cs, width);
    if DistinctPaths(cs) { SortKeepsPaths(cs); }
    forall x | x in r ensures x in cs { assert x in sorted; }
    if r != [] {
      assert r[0] == sorted[0] && r[0] in sorted;
      forall x | x in cs ensures !Ahead(x, r[0]) {
        assert x in sorted;
        var i :| 0 <= i < |sorted| && sorted[i] == x;
      }
    }
  }

  /** What is kept: as many as there may be, and nobody left out comes ahead of anybody kept. */
  lemma BestKeepsBest(cs: seq<Candidate>, width: nat) returns (others: seq<Candidate>)
    ensures |Best(cs, width)| == if |cs| < width then |cs| else width
    ensures multiset(Best(cs, width)) + multiset(others) == multiset(cs)
    ensures forall kept, other | kept in Best(cs, width) && other in others :: !Ahead(other, kept)
  {
    AheadIsStrict();
    SortBySorts(cs, Ahead);
    SortByKeeps(cs, Ahead);
    var sorted, best := SortBy(cs, Ahead), Best(cs, width);
    others := sorted[|best|..];
    assert sorted == best + others;
    forall kept, other | kept in best && other in others ensures !Ahead(other, kept) {
      CutIsSorted(sorted, Ahead, |best|, kept, other);
    }
  }

  /** The paths part at `k`, where the first ends or has the smaller label. */
  ghost predicate PathsPartAt(a: Path, b: Path, k: nat) {
    k <= |a| && k < |b| && a[..k] == b[..k] && (k == |a| || Precedes(a[k], b[k]))
  }

  lemma {:induction false} DistinctPathsPart(a: Path, b: Path)
    requires a != b && !PathBefore(b, a)
    ensures exists k: nat :: PathsPartAt(a, b, k)
  {
    if a == [] {
      assert PathsPartAt(a, b, 0);
    } else if b != [] {
      PrecedesTotal(a[0], b[0]);
      if a[0] == b[0] {
        assert a == [a[0]] + a[1..] && b == [b[0]] + b[1..];
        PrecedesIrreflexive(a[0]);
        DistinctPathsPart(a[1..], b[1..]);
        var k: nat :| PathsPartAt(a[1..], b[1..], k);
        assert a[..k + 1] == [a[0]] + a[1..][..k] && b[..k + 1] == [b[0]] + b[1..][..k];
        assert PathsPartAt(a, b, k + 1);
      } else {
        assert PathsPartAt(a, b, 0);
      }
    }
  }

  /** Among survivors with one mean, the one whose path has the smaller label where they part comes first. */
  lemma TiesGoToSmallerPath(e: Replay, width: nat, i: nat, j: nat)
    requires DistinctLabels(e.tree) && width > 0 && Survivors(e, width).Ok?
    requires i < j < |Survivors(e, width).value|
    ensures var a, b := Survivors(e, width).value[i], Survivors(e, width).value[j];
            Mean(a) > Mean(b) || (Mean(a) == Mean(b) && exists k: nat :: PathsPartAt(a.path, b.path, k))
  {
    SurvivorsMean(e, width);
    var cs := Survivors(e, width).value;
    assert !Ahead(cs[j], cs[i]) && cs[i].path != cs[j].path;
    if Mean(cs[i]) == Mean(cs[j]) { DistinctPathsPart(cs[i].path, cs[j].path); }
  }

  lemma SortKeepsPaths(cs: seq<Candidate>)
    requires DistinctPaths(cs)
    ensures DistinctPaths(SortBy(cs, Ahead))
  {
    var sorted := SortBy(cs, Ahead);
    SortKeepsDistinct(cs, Ahead);
    SortByKeeps(cs, Ahead);
    forall i, j | 0 <= i < j < |sorted| ensures sorted[i].path != sorted[j].path {
      assert sorted[i] in sorted && sorted[j] in sorted && sorted[i] != sorted[j];
      var a :| 0 <= a < |cs| && cs[a] == sorted[i];
      var b :| 0 <= b < |cs| && cs[b] == sorted[j];
      assert a < b || b < a;
    }
  }

  lemma ExpandSingle(e: Replay, c: Candidate)
    ensures Expand(e, [c]) == ExpandOne(e, c)
  {
    var cs := [c];
    assert cs[..|cs| - 1] == [] && cs[|cs| - 1] == c;
    assert Expand(e, cs[..|cs| - 1]) == Ok([]);
    if ExpandOne(e, c).Ok? {
      assert [] + ExpandOne(e, c).value == ExpandOne(e, c).value;
    }
  }

  lemma FirstLevelMeans(e: Replay, width: nat)
    requires DistinctLabels(e.tree) && width > 0 && Level(e, [ROOT], width).Ok?
    ensures var first := Level(e, [ROOT], width).value;
            && first != [] && DistinctPaths(first)
                && (forall c | c in first :: TopPath(e.tree, c.path) && Grown(e, ROOT, c))
  {
    var cs := [ROOT];
    var expanded := Expand(e, cs).value;
    ExpandSingle(e, ROOT);
    ExpandOneMeans(e, ROOT);
    BestMeans(expanded, width);
    forall c | c in Level(e, cs, width).value ensures TopPath(e.tree, c.path) && Grown(e, ROOT, c) {
      assert c in expanded && Grown(e, ROOT, c);
      assert Children(e.tree, []) != [];
      var o :| o in Children(e.tree, []) && c.path == [] + [o];
      ChildrenHave(e.tree, [], o);
    }
  }

  lemma GrownStays(e: Replay, c: Candidate, x: Candidate)
    requires DistinctLabels(e.tree) && TopPath(e.tree, c.path) && Grown(e, c, x)
    ensures TreePath(e.tree, x.path) && x.path != [] && x.path[0] == c.path[0]
  {
    ChildrenHave(e.tree, c.path, GENRE_ONLY);
    if c.path[0] != NONE_LABEL {
      var o :| o in Children(e.tree, c.path) && x.path == c.path + [o];
      ChildrenHave(e.tree, c.path, o);
    }
  }

  /** `x` lies below one of the candidates. */
  ghost predicate Below(cs: seq<Candidate>, x: Candidate) {
    exists c :: c in cs && x.path != [] && c.path != [] && x.path[0] == c.path[0]
  }

  /** What grows from a new first label differs from all that grew from the others. */
  lemma OtherBranch(e: Replay, cs: seq<Candidate>, last: Candidate, a: Candidate, b: Candidate)
    requires DistinctPaths(cs + [last]) && forall c | c in cs + [last] :: TopPath(e.tree, c.path)
    requires Below(cs, a) && b.path != [] && last.path != [] && b.path[0] == last.path[0]
    ensures a.path != b.path
  {
    var all := cs + [last];
    var c :| c in cs && a.path != [] && c.path != [] && a.path[0] == c.path[0];
    var i :| 0 <= i < |cs| && cs[i] == c;
    assert all[i] == c && all[|cs|] == last && all[i] in all && all[|cs|] in all;
    assert c.path == [c.path[0]] && last.path == [last.path[0]];
  }

  lemma {:induction false} SecondExpandMeans(e: Replay, cs: seq<Candidate>)
    requires DistinctLabels(e.tree) && Expand(e, cs).Ok? && DistinctPaths(cs) && forall c | c in cs ::
                                                                                   TopPath(e.tree, c.path)
    ensures var r := Expand(e, cs).value;
            && (r == [] ==> cs == []) && DistinctPaths(r)
            && (forall x | x in r :: TreePath(e.tree, x.path) && Below(cs, x))
  {
    if cs != [] {
      var n := |cs| - 1;
      var front, last := Expand(e, cs[..n]).value, ExpandOne(e, cs[n]).value;
      SecondExpandMeans(e, cs[..n]);
      ExpandOneMeans(e, cs[n]);
      assert cs == cs[..n] + [cs[n]] && cs[n] in cs;
      forall x | x in last ensures TreePath(e.tree, x.path) && x.path != [] && x.path[0] == cs[n].path[0]
          && Below(cs, x) {
        GrownStays(e, cs[n], x);
      }
      forall x | x in front ensures Below(cs, x) {
        var c :| c in cs[..n] && x.path != [] && c.path != [] && x.path[0] == c.path[0];
        assert c in cs;
      }
      forall i, j | 0 <= i < |front| && 0 <= j < |last| ensures front[i].path != last[j].path {
        assert front[i] in front && last[j] in last;
        OtherBranch(e, cs[..n], cs[n], front[i], last[j]);
      }
    }
  }

  /** Equal paths cannot both survive; each survivor is a path of the tree, at most `width`, best first. */
  lemma SurvivorsMean(e: Replay, width: nat)
    requires DistinctLabels(e.tree) && width > 0 && Survivors(e, width).Ok?
    ensures var cs := Survivors(e, width).value;
            && cs != [] && |cs| <= width && Sorted(cs, Ahead) && DistinctPaths(cs)
            && forall c | c in cs :: TreePath(e.tree, c.path)
  {
    FirstLevelMeans(e, width);
    var first := Level(e, [ROOT], width).value;
    SecondExpandMeans(e, first);
    BestMeans(Expand(e, first).value, width);
  }

  // ------------------------------------------------------------ scores

  /** What the search needs of the real exponential. */
  ghost predicate Exponential(exp: real -> real) {
    exp(0.0) == 1.0 && forall a: real, b: real :: a <= b ==> exp(a) <= exp(b)
  }

  lemma ScoreIsExpOfMean(exp: real -> real, c: Candidate)
    requires Exponential(exp)
    ensures ScoreOf(exp, c).score == exp(Mean(c))
  {}

  /**
   For every taxonomy with distinct labels and captures that replay accepts: the results are paths of
   the tree, distinct, at least one and at most `width`, by falling score.
   */
  lemma ResultsAreTreePaths(e: Replay, width: nat)
    requires DistinctLabels(e.tree) && Exponential(e.exp) && Traverse(e, width).Ok?
    ensures var r := Traverse(e, width).value;
            && 1 <= |r| <= width
            && (forall i | 0 <= i < |r| :: TreePath(e.tree, r[i].path))
            && (forall i, j | 0 <= i < j < |r| :: r[i].path != r[j].path && r[i].score >= r[j].score)
  {
    SurvivorsMean(e, width);
    var cs, r := Survivors(e, width).value, Traverse(e, width).value;
    forall i, j | 0 <= i < j < |r| ensures r[i].path != r[j].path && r[i].score >= r[j].score {
      assert !Ahead(cs[j], cs[i]);
      ScoreIsExpOfMean(e.exp, cs[i]);
      ScoreIsExpOfMean(e.exp, cs[j]);
    }
    forall i | 0 <= i < |r| ensures TreePath(e.tree, r[i].path) { assert cs[i] in cs; }
  }

  // ------------------------------------------------------------ the beam covers greedy

  predicate Asks(tree: Taxonomy, path: Path) { |Children(tree, path)| > 1 }

  /** The requests one search looks up. */
  ghost function KeysUsed(e: Replay, width: nat): set<Key>
    requires Level(e, [ROOT], width).Ok?
  {
    var first := Level(e, [ROOT], width).value;
    (if Asks(e.tree, []) then {KeyFor(e, [])} else {})
    + (set c | c in first && Asks(e.tree, c.path) :: KeyFor(e, c.path))
  }

  lemma {:induction false} ExpandPrefix(e: Replay, cs: seq<Candidate>, n: nat)
    requires n <= |cs| && Expand(e, cs).Ok?
    ensures Expand(e, cs[..n]).Ok? && Expand(e, cs[..n]).value <= Expand(e, cs).value
  {
    if n == |cs| {
      assert cs[..n] == cs;
    } else {
      assert cs[..|cs| - 1][..n] == cs[..n];
      ExpandPrefix(e, cs[..|cs| - 1], n);
    }
  }

  lemma GreedyIsPrefix(e: Replay)
    requires Level(e, [ROOT], 3).Ok?
    ensures Level(e, [ROOT], 1).Ok? && Level(e, [ROOT], 1).value <= Level(e, [ROOT], 3).value
  {}

  lemma GreedyKeysCovered(e: Replay)
    requires Level(e, [ROOT], 3).Ok?
    ensures Level(e, [ROOT], 1).Ok? && KeysUsed(e, 1) <= KeysUsed(e, 3)
  {
    GreedyIsPrefix(e);
    var wide, greedy := Level(e, [ROOT], 3).value, Level(e, [ROOT], 1).value;
    forall k | k in KeysUsed(e, 1) ensures k in KeysUsed(e, 3) {
      if !(Asks(e.tree, []) && k == KeyFor(e, [])) {
        var c :| c in greedy && Asks(e.tree, c.path) && k == KeyFor(e, c.path);
        assert c in wide;
      }
    }
  }

  /** The best of a list is at least the best of any part of it. */
  lemma BestOfMore(some: seq<Candidate>, all: seq<Candidate>)
    requires some != [] && forall c | c in some :: c in all
    ensures |Best(some, 1)| > 0 && |Best(all, 3)| > 0 && Mean(Best(all, 3)[0]) >= Mean(Best(some, 1)[0])
  {
    BestMeans(all, 3);
    BestMeans(some, 1);
    assert some[0] in all;
    var one := Best(some, 1)[0];
    assert one in all && !Ahead(one, Best(all, 3)[0]);
  }

  /**
   Where the three-wide search succeeds, greedy search succeeds too, needs no request the wide one did
   not use, and its score is at most the best of the wide one.
   */
  lemma BeamCoversGreedy(e: Replay)
    requires DistinctLabels(e.tree) && Exponential(e.exp) && Traverse(e, 3).Ok?
    ensures Traverse(e, 1).Ok?
    ensures KeysUsed(e, 1) <= KeysUsed(e, 3)
    ensures |Traverse(e, 1).value| == 1 && |Traverse(e, 3).value| >= 1
    ensures Traverse(e, 3).value[0].score >= Traverse(e, 1).value[0].score
  {
    GreedyKeysCovered(e);
    GreedyIsPrefix(e);
    var wide, greedy := Level(e, [ROOT], 3).value, Level(e, [ROOT], 1).value;
    assert greedy == wide[..|greedy|];
    ExpandPrefix(e, wide, |greedy|);
    SurvivorsMean(e, 1);
    SurvivorsMean(e, 3);
    var all, some := Expand(e, wide).value, Expand(e, greedy).value;
    BestMeans(some, 1);
    assert forall c | c in some :: c in all;
    BestOfMore(some, all);
    ScoreIsExpOfMean(e.exp, Best(all, 3)[0]);
    ScoreIsExpOfMean(e.exp, Best(some, 1)[0]);
  }

  // ------------------------------------------------------------ a search reads only its keys

  /** The same entries, and perhaps more. */
  predicate Includes(more: map<Key, Capture>, captures: map<Key, Capture>) {
    forall k | k in captures :: k in more && more[k] == captures[k]
  }

  lemma ExpandOneStable(e: Replay, more: map<Key, Capture>, c: Candidate)
    requires ExpandOne(e, c).Ok? && Includes(more, e.captures)
    ensures ExpandOne(e.(captures := more), c) == ExpandOne(e, c)
  {}

  lemma {:induction false} ExpandStable(e: Replay, more: map<Key, Capture>, cs: seq<Candidate>)
    requires Expand(e, cs).Ok? && Includes(more, e.captures)
    ensures Expand(e.(captures := more), cs) == Expand(e, cs)
  {
    if cs != [] {
      ExpandStable(e, more, cs[..|cs| - 1]);
      ExpandOneStable(e, more, cs[|cs| - 1]);
    }
  }

  /** A search that succeeded keeps its result as captures are added. */
  lemma TraverseStable(e: Replay, more: map<Key, Capture>, width: nat)
    requires Traverse(e, width).Ok? && Includes(more, e.captures)
    ensures Traverse(e.(captures := more), width) == Traverse(e, width)
  {
    ExpandStable(e, more, [ROOT]);
    ExpandStable(e, more, Level(e, [ROOT], width).value);
  }

  /** The two caches hold the same answers for the tag. */
  ghost predicate SameFor(tag: string, a: map<Key, Capture>, b: map<Key, Capture>) {
    forall k: Key | k.tag == tag :: (k in a <==> k in b) && (k in a ==> a[k] == b[k])
  }

  lemma {:induction false} ExpandReadsOwnKeys(e: Replay, other: map<Key, Capture>, cs: seq<Candidate>)
    requires SameFor(e.tag, e.captures, other)
    ensures Expand(e.(captures := other), cs) == Expand(e, cs)
  {
    if cs != [] {
      ExpandReadsOwnKeys(e, other, cs[..|cs| - 1]);
      assert KeyFor(e.(captures := other), cs[|cs| - 1].path) == KeyFor(e, cs[|cs| - 1].path);
    }
  }

  /** A search depends on its own tag's answers only. */
  lemma TraverseReadsOwnKeys(e: Replay, other: map<Key, Capture>, width: nat)
    requires SameFor(e.tag, e.captures, other)
    ensures Traverse(e.(captures := other), width) == Traverse(e, width)
  {
    ExpandReadsOwnKeys(e, other, [ROOT]);
    if Level(e, [ROOT], width).Ok? {
      ExpandReadsOwnKeys(e, other, Level(e, [ROOT], width).value);
    }
  }
}
