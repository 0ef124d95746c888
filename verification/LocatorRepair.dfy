/** engine/healer/locator_repair.py and gating.py: choose the DOM candidate closest
    to a lost locator, splice its name into the failing line, and decide whether the
    edit may be applied unattended. */
module LocatorRepair {
  import A = Alphabet
  import opened Sorting
  import opened Text
  import opened Wrappers

  datatype Descriptor = Descriptor(
    role: Option<string>, accessibleName: Option<string>, text: Option<string>, landmarks: seq<string>, tagName: Option<string>)

  datatype Candidate = Candidate(
    role: string, accessibleName: string, text: string, landmarks: seq<string>, tagName: Option<string>)

  datatype Rationale =
    | RoleMismatch | ExactSameLandmark | Exact | RoleNoName
    | FuzzySameLandmark(similarity: real) | Fuzzy(similarity: real) | RoleOnly

  /** The parts this model does not look inside: string similarity, the span of the `name:` argument of the
      first `getByRole` call on a line, `re.escape`, and the count of assertions the guard compares. */
  datatype Env = Env(
    similarity: (string, string) -> real, span: string -> Option<(nat, nat)>,
    escape: string -> string, assertions: string -> nat)

  ghost predicate SpansInside(env: Env) {
    forall line :: env.span(line).Some? ==> env.span(line).value.0 <= env.span(line).value.1 <= |line|
  }

  predicate SameLandmark(d: Descriptor, c: Candidate) {
    d.landmarks != [] && c.landmarks != [] && d.landmarks[|d.landmarks| - 1] == c.landmarks[|c.landmarks| - 1]
  }

  function Score(env: Env, d: Descriptor, c: Candidate): (real, Rationale) {
    if d.role != Some(c.role) then (0.0, RoleMismatch)
    else
      var sameName := d.accessibleName == Some(c.accessibleName);
      if sameName && SameLandmark(d, c) then (0.95, ExactSameLandmark)
      else if sameName then (0.9, Exact)
      else if d.accessibleName.None? then (0.5, RoleNoName)
      else
        var similarity := env.similarity(d.accessibleName.value, c.accessibleName);
        if similarity >= 0.8 && SameLandmark(d, c) then (0.75, FuzzySameLandmark(similarity))
        else if similarity >= 0.8 then (0.7, Fuzzy(similarity))
        else (0.5, RoleOnly)
  }

  /** Both lie in landmarks, the innermost the same. */
  ghost predicate Together(a: seq<string>, b: seq<string>) { exists outer, outer', inner :: a == outer + [inner] && b == outer' + [inner] }

  lemma TogetherIff(d: Descriptor, c: Candidate)
    ensures SameLandmark(d, c) <==> Together(d.landmarks, c.landmarks)
  {
    if SameLandmark(d, c) {
      var a, b := d.landmarks, c.landmarks;
      assert a == a[..|a| - 1] + [a[|a| - 1]] && b == b[..|b| - 1] + [a[|a| - 1]];
    }
  }

  /** The six grades of a match, each told by what it takes: another role, only the role, a like name, a like name in one
      landmark, the name, the name in one landmark. */
  lemma ScoreTold(env: Env, d: Descriptor, c: Candidate)
    ensures var s := Score(env, d, c); var grade := s.0;
      var role, named, near := d.role == Some(c.role), d.accessibleName == Some(c.accessibleName), Together(d.landmarks, c.landmarks);
      var alike := d.accessibleName.Some? && env.similarity(d.accessibleName.value, c.accessibleName) >= 0.8;
      && (grade == 0.0 <==> !role) && (grade == 0.5 <==> role && !named && !alike)
      && (grade == 0.7 <==> role && !named && alike && !near) && (grade == 0.75 <==> role && !named && alike && near)
      && (grade == 0.9 <==> role && named && !near) && (grade == 0.95 <==> role && named && near)
      && (s.1 == RoleMismatch <==> grade == 0.0) && (s.1 == ExactSameLandmark <==> grade == 0.95) && (s.1 == Exact <==> grade == 0.9)
      && (s.1.FuzzySameLandmark? <==> grade == 0.75) && (s.1.Fuzzy? <==> grade == 0.7)
      && (s.1 == RoleNoName <==> grade == 0.5 && d.accessibleName.None?) && (s.1 == RoleOnly <==> grade == 0.5 && d.accessibleName.Some?)
      && (s.1.FuzzySameLandmark? || s.1.Fuzzy? ==> s.1.similarity == env.similarity(d.accessibleName.value, c.accessibleName))
  {
    TogetherIff(d, c);
  }

  datatype Scored = Scored(confidence: real, rationale: Rationale, candidate: Candidate)

  function ScoreAll(env: Env, d: Descriptor, cs: seq<Candidate>): seq<Scored> {
    if cs == [] then []
    else
      var (confidence, rationale) := Score(env, d, cs[0]);
      (if confidence > 0.0 then [Scored(confidence, rationale, cs[0])] else []) + ScoreAll(env, d, cs[1..])
  }

  predicate Better(a: Scored, b: Scored) {
    a.confidence > b.confidence
    || (a.confidence == b.confidence && StrLe(a.candidate.accessibleName, b.candidate.accessibleName))
  }

  lemma BetterOrdering()
    ensures Ordering(Better)
  {
    StrLeOrdering();
  }

  function Best(env: Env, d: Descriptor, cs: seq<Candidate>): Option<Scored> {
    var scored := SortBy(Better, ScoreAll(env, d, cs));
    if scored == [] then None else Some(scored[0])
  }

  lemma {:induction false} ScoreAllMember(env: Env, d: Descriptor, cs: seq<Candidate>, s: Scored)
    ensures s in ScoreAll(env, d, cs) <==>
      s.candidate in cs && (s.confidence, s.rationale) == Score(env, d, s.candidate) && s.confidence > 0.0
  {
    if cs != [] {
      ScoreAllMember(env, d, cs[1..], s);
      assert cs == [cs[0]] + cs[1..];
    }
  }

  function ScoredOf(env: Env, d: Descriptor, c: Candidate): Scored {
    Scored(Score(env, d, c).0, Score(env, d, c).1, c)
  }

  lemma SortedHead(all: seq<Scored>)
    ensures SortBy(Better, all) != [] <==> all != []
    ensures all != [] ==> SortBy(Better, all)[0] in all && forall s | s in all :: Better(SortBy(Better, all)[0], s)
  {
    var sorted := SortBy(Better, all);
    BetterOrdering();
    SortBySorted(Better, all);
    forall s ensures s in sorted <==> s in all { SameElements(sorted, all, s); }
  }

  lemma NoneScored(env: Env, d: Descriptor, cs: seq<Candidate>)
    ensures ScoreAll(env, d, cs) == [] <==> forall c | c in cs :: d.role != Some(c.role)
  {
    if cs != [] { NoneScored(env, d, cs[1..]); }
  }

  /** The choice is the best-scored candidate, by name among equals; there is none exactly when no role matches. */
  lemma BestIsBest(env: Env, d: Descriptor, cs: seq<Candidate>)
    ensures Best(env, d, cs).None? <==> forall c | c in cs :: d.role != Some(c.role)
    ensures Best(env, d, cs).Some? ==>
      var b := Best(env, d, cs).value;
      && b.candidate in cs && b == ScoredOf(env, d, b.candidate) && b.confidence > 0.0
      && forall c | c in cs && Score(env, d, c).0 > 0.0 :: Better(b, ScoredOf(env, d, c))
  {
    SortedHead(ScoreAll(env, d, cs));
    NoneScored(env, d, cs);
    if Best(env, d, cs).Some? {
      ScoreAllMember(env, d, cs, Best(env, d, cs).value);
      forall c | c in cs && Score(env, d, c).0 > 0.0 ensures ScoredOf(env, d, c) in ScoreAll(env, d, cs) {
        ScoreAllMember(env, d, cs, ScoredOf(env, d, c));
      }
    }
  }

  /** Of the candidates with the role none scores higher than the choice, and none that scores as high has a smaller name. */
  lemma BestTold(env: Env, d: Descriptor, cs: seq<Candidate>, c: Candidate)
    requires c in cs && d.role == Some(c.role)
    ensures Best(env, d, cs).Some?
    ensures var best, grade := Best(env, d, cs).value, Score(env, d, c).0;
      && best.candidate in cs && (best.confidence, best.rationale) == Score(env, d, best.candidate)
      && best.confidence >= grade
      && (best.confidence == grade ==> Earlier(best.candidate.accessibleName, c.accessibleName))
  {
    BestIsBest(env, d, cs);
    var best := Best(env, d, cs).value;
    assert Better(best, ScoredOf(env, d, c));
    StrLeIff(best.candidate.accessibleName, c.accessibleName);
  }

  /** Equal confidence and name mean an equal rationale too. */
  lemma ScoreTiesAgree(env: Env, d: Descriptor, a: Candidate, b: Candidate)
    requires Score(env, d, a).0 == Score(env, d, b).0 && a.accessibleName == b.accessibleName
    ensures Score(env, d, a) == Score(env, d, b)
  {}

  /** Permuting the candidates changes neither the confidence, nor the name spliced in, nor the rationale. */
  lemma OrderDoesNotMatter(env: Env, d: Descriptor, cs: seq<Candidate>, ds: seq<Candidate>)
    requires forall c :: c in cs <==> c in ds
    ensures Best(env, d, cs).Some? <==> Best(env, d, ds).Some?
    ensures Best(env, d, cs).Some? ==>
      var a, b := Best(env, d, cs).value, Best(env, d, ds).value;
      a.confidence == b.confidence && a.rationale == b.rationale && a.candidate.accessibleName == b.candidate.accessibleName
  {
    BestIsBest(env, d, cs);
    BestIsBest(env, d, ds);
    if Best(env, d, cs).Some? && Best(env, d, ds).Some? {
      var a, b := Best(env, d, cs).value, Best(env, d, ds).value;
      assert Better(a, ScoredOf(env, d, b.candidate)) && Better(b, ScoredOf(env, d, a.candidate));
      if a.confidence == b.confidence {
        StrLeAntisym(a.candidate.accessibleName, b.candidate.accessibleName);
        ScoreTiesAgree(env, d, a.candidate, b.candidate);
      }
    }
  }

  // ----- the proposal -----

  datatype Proposal = Proposal(
    line: int, originalBehavior: string, proposedChange: string, proposedSource: string,
    confidence: real, rationale: Rationale, requiresHumanReview: bool, descriptor: Descriptor)

  /** No proposal, one, or one of the two errors the caller sees: fewer assertions than before, or an
      empty diff, which the proposal record refuses. */
  datatype Outcome = Nothing | Proposed(p: Proposal) | WeakensAssertions | EmptyDiff

  function Splice(env: Env, line: string, name: string): string
    requires SpansInside(env) && env.span(line).Some?
  {
    line[..env.span(line).value.0] + "/" + env.escape(name) + "/i" + line[env.span(line).value.1..]
  }

  function DropNewlines(s: string): string
    decreases |s|
  {
    if s != "" && s[|s| - 1] == '\n' then DropNewlines(s[..|s| - 1]) else s
  }

  function DescriptorOf(c: Candidate): Descriptor {
    Descriptor(Some(c.role), Some(c.accessibleName), if c.text == "" then None else Some(c.text), c.landmarks, c.tagName)
  }

  /** The failing line, when the line number exists and the line has a `getByRole` call to edit. */
  function TargetLine(env: Env, source: string, locatorLine: int): Option<string> {
    var lines := SplitKeep(source);
    if 1 <= locatorLine <= |lines| && env.span(lines[locatorLine - 1]).Some? then Some(lines[locatorLine - 1]) else None
  }

  lemma TargetTold(env: Env, source: string, locatorLine: int, line: string)
    ensures TargetLine(env, source, locatorLine) == Some(line) <==>
      1 <= locatorLine <= |SplitKeep(source)| && SplitKeep(source)[locatorLine - 1] == line && env.span(line).Some?
  {}

  /** What the edit turns the source into. */
  function Edited(env: Env, source: string, locatorLine: int, name: string): string
    requires SpansInside(env) && TargetLine(env, source, locatorLine).Some?
  {
    var lines := SplitKeep(source);
    Concat(lines[..locatorLine - 1]) + Splice(env, lines[locatorLine - 1], name) + Concat(lines[locatorLine..])
  }

  lemma SameMiddle(before: string, x: string, y: string, after: string)
    ensures before + x + after == before + y + after <==> x == y
  {
    var s, t := before + x + after, before + y + after;
    if s == t {
      assert |s| == |before| + |x| + |after| && |t| == |before| + |y| + |after|;
      assert s[|before|..|before| + |x|] == x && t[|before|..|before| + |y|] == y;
    }
  }

  /** The edit replaces one line of the text and leaves everything before and after it as it was. */
  lemma EditTouchesOneLine(env: Env, source: string, locatorLine: int, name: string) returns (before: string, after: string)
    requires SpansInside(env) && TargetLine(env, source, locatorLine).Some?
    ensures var line := TargetLine(env, source, locatorLine).value;
      && 1 <= locatorLine <= |SplitKeep(source)| && line == SplitKeep(source)[locatorLine - 1]
      && before == Concat(SplitKeep(source)[..locatorLine - 1]) && source == before + line + after
      && Edited(env, source, locatorLine, name) == before + Splice(env, line, name) + after
      && (Edited(env, source, locatorLine, name) == source <==> Splice(env, line, name) == line)
  {
    var lines, k := SplitKeep(source), locatorLine - 1;
    before, after := Concat(lines[..k]), Concat(lines[k + 1..]);
    SplitKeepLosesNothing(source);
    ConcatAround(lines, k, lines[k]);
    assert lines[k := lines[k]] == lines;
    SameMiddle(before, Splice(env, lines[k], name), lines[k], after);
  }

  /** What becomes of an edited source. */
  function Conclude(env: Env, source: string, edited: string, locatorLine: int, line: string, newLine: string, best: Scored, threshold: real): Outcome {
    if env.assertions(edited) < env.assertions(source) then WeakensAssertions
    else if edited == source then EmptyDiff
    else
      Proposed(Proposal(
        locatorLine, DropNewlines(line), DropNewlines(newLine), edited, best.confidence, best.rationale,
        best.confidence < threshold, DescriptorOf(best.candidate)))
  }

  function Propose(env: Env, source: string, locatorLine: int, d: Descriptor, cs: seq<Candidate>, threshold: real): Outcome
    requires SpansInside(env)
  {
    var best := Best(env, d, cs);
    var target := TargetLine(env, source, locatorLine);
    if best.None? || target.None? then Nothing
    else
      var name := best.value.candidate.accessibleName;
      Conclude(env, source, Edited(env, source, locatorLine, name), locatorLine, target.value, Splice(env, target.value, name), best.value, threshold)
  }

  // ----- what a proposal holds -----

  ghost predicate Bare(s: string) { s != "" ==> s[|s| - 1] != '\n' }

  lemma {:induction false} DropNewlinesTold(s: string) returns (newlines: string)
    ensures s == DropNewlines(s) + newlines && A.OnlyOf(newlines, "\n")
    ensures Bare(DropNewlines(s))
    decreases |s|
  {
    newlines := "";
    if s != "" && s[|s| - 1] == '\n' {
      var fewer := DropNewlinesTold(s[..|s| - 1]);
      newlines := fewer + "\n";
    }
  }

  ghost predicate ReplacedIn(env: Env, line: string, newLine: string, name: string, front: string, argument: string, back: string) {
    && line == front + argument + back && env.span(line) == Some((|front|, |front| + |argument|))
    && newLine == front + "/" + env.escape(name) + "/i" + back
  }

  /** The new line is the old one with a pattern for the name, in slashes and ignoring case, where the old argument was. */
  ghost predicate ArgumentReplaced(env: Env, line: string, newLine: string, name: string) {
    exists front, argument, back :: ReplacedIn(env, line, newLine, name, front, argument, back)
  }

  lemma InThree(s: string, i: nat, j: nat)
    requires i <= j <= |s|
    ensures s == s[..i] + s[i..j] + s[j..] && |s[..i]| == i && |s[i..j]| == j - i
  {}

  lemma SpliceReplaces(env: Env, line: string, name: string)
    requires SpansInside(env) && env.span(line).Some?
    ensures ArgumentReplaced(env, line, Splice(env, line, name), name)
  {
    var i, j := env.span(line).value.0, env.span(line).value.1;
    InThree(line, i, j);
    assert env.span(line) == Some((i, i + (j - i)));
    assert ReplacedIn(env, line, Splice(env, line, name), name, line[..i], line[i..j], line[j..]);
  }

  /** A descriptor with everything known of the candidate; a candidate without text leaves none. */
  ghost predicate Describes(d: Descriptor, c: Candidate) {
    && d.role == Some(c.role) && d.accessibleName == Some(c.accessibleName) && d.landmarks == c.landmarks && d.tagName == c.tagName
    && (d.text == None <==> c.text == "") && (d.text.Some? ==> d.text.value == c.text)
  }

  /** A line and what is left of it without its newlines. */
  ghost predicate Trimmed(line: string, bare: string) {
    Bare(bare) && exists newlines: string :: line == bare + newlines && A.OnlyOf(newlines, "\n")
  }

  lemma TrimmedByDropping(line: string)
    ensures Trimmed(line, DropNewlines(line))
  {
    var newlines := DropNewlinesTold(line);
    assert line == DropNewlines(line) + newlines;
  }

  lemma ProposalFields(env: Env, source: string, locatorLine: int, d: Descriptor, cs: seq<Candidate>, threshold: real)
    requires SpansInside(env) && Propose(env, source, locatorLine, d, cs, threshold).Proposed?
    ensures Best(env, d, cs).Some? && TargetLine(env, source, locatorLine).Some?
    ensures var p, best := Propose(env, source, locatorLine, d, cs, threshold).p, Best(env, d, cs).value;
      var line, name := TargetLine(env, source, locatorLine).value, best.candidate.accessibleName;
      && p.originalBehavior == DropNewlines(line) && p.proposedChange == DropNewlines(Splice(env, line, name))
      && p.proposedSource == Edited(env, source, locatorLine, name)
      && p.line == locatorLine && p.confidence == best.confidence && p.rationale == best.rationale && Describes(p.descriptor, best.candidate)
  {}

  /** A proposal quotes the line it edits and what it makes of it, both without their newlines; its source is the text
      with that one line's argument replaced by the name of the best candidate, which its descriptor records. */
  lemma ProposalTold(env: Env, source: string, locatorLine: int, d: Descriptor, cs: seq<Candidate>, threshold: real)
      returns (before: string, line: string, newLine: string, after: string)
    requires SpansInside(env) && Propose(env, source, locatorLine, d, cs, threshold).Proposed?
    ensures Best(env, d, cs).Some? && TargetLine(env, source, locatorLine) == Some(line)
    ensures var p, best := Propose(env, source, locatorLine, d, cs, threshold).p, Best(env, d, cs).value;
      && 1 <= locatorLine <= |SplitKeep(source)| && before == Concat(SplitKeep(source)[..locatorLine - 1])
      && source == before + line + after && p.proposedSource == before + newLine + after
      && ArgumentReplaced(env, line, newLine, best.candidate.accessibleName)
      && Trimmed(line, p.originalBehavior) && Trimmed(newLine, p.proposedChange)
      && p.line == locatorLine && p.confidence == best.confidence && p.rationale == best.rationale && Describes(p.descriptor, best.candidate)
  {
    ProposalFields(env, source, locatorLine, d, cs, threshold);
    var name := Best(env, d, cs).value.candidate.accessibleName;
    line := TargetLine(env, source, locatorLine).value;
    newLine := Splice(env, line, name);
    before, after := EditTouchesOneLine(env, source, locatorLine, name);
    SpliceReplaces(env, line, name);
    TrimmedByDropping(line);
    TrimmedByDropping(newLine);
  }

  // ----- the gate -----

  datatype Kind = Locator | Wait | Fixture | Assertion
  datatype Mode = Off | Safe | Aggressive
  datatype Decision = Apply | ModeOff | HandEdited | NeedsReview | KindNotPermitted | WeakenNotAllowed | BelowThreshold

  function Decide(kind: Kind, review: bool, confidence: real, handEdited: bool, mode: Mode, threshold: real, allowWeaken: bool): Decision {
    if mode.Off? then ModeOff
    else if handEdited then HandEdited
    else if review then NeedsReview
    else if !(kind.Locator? || kind.Wait? || mode.Aggressive?) then KindNotPermitted
    else if kind.Assertion? && !allowWeaken then WeakenNotAllowed
    else if confidence < threshold then BelowThreshold
    else Apply
  }

  /** A repair goes in exactly when every gate is open; otherwise the first one closed is named. */
  lemma GateOpensIff(kind: Kind, review: bool, confidence: real, handEdited: bool, mode: Mode, threshold: real, allowWeaken: bool)
    ensures var decision := Decide(kind, review, confidence, handEdited, mode, threshold, allowWeaken);
      var safe := kind in {Locator, Wait};
      && (decision == Apply <==>
          && mode in {Safe, Aggressive} && !handEdited && !review && confidence >= threshold
          && (mode == Safe ==> safe) && (kind == Assertion ==> allowWeaken))
      && (decision == ModeOff <==> mode == Off)
      && (decision == HandEdited <==> mode != Off && handEdited)
      && (decision == NeedsReview <==> mode != Off && !handEdited && review)
      && (decision == KindNotPermitted <==> mode == Safe && !handEdited && !review && kind in {Fixture, Assertion})
      && (decision == WeakenNotAllowed <==> mode == Aggressive && !handEdited && !review && kind == Assertion && !allowWeaken)
  {}

  predicate Matches(d: Descriptor, c: Candidate) {
    d.role == Some(c.role) && d.accessibleName == Some(c.accessibleName)
  }

  /** Confidence reaches 0.9 exactly for an exact role and name. */
  lemma ConfidentIffExact(env: Env, d: Descriptor, cs: seq<Candidate>)
    ensures Best(env, d, cs).Some? && Best(env, d, cs).value.confidence >= 0.9 <==> exists c :: c in cs && Matches(d, c)
    ensures Best(env, d, cs).Some? && Best(env, d, cs).value.confidence >= 0.9 ==> Matches(d, Best(env, d, cs).value.candidate)
  {
    BestIsBest(env, d, cs);
    if c :| c in cs && Matches(d, c) {
      assert Score(env, d, c).0 >= 0.9;
      assert Better(Best(env, d, cs).value, ScoredOf(env, d, c));
    }
  }

  predicate AutoApplied(env: Env, source: string, locatorLine: int, d: Descriptor, cs: seq<Candidate>, handEdited: bool, mode: Mode, allowWeaken: bool)
    requires SpansInside(env)
  {
    var outcome := Propose(env, source, locatorLine, d, cs, 0.9);
    outcome.Proposed? && Decide(Locator, outcome.p.requiresHumanReview, outcome.p.confidence, handEdited, mode, 0.9, allowWeaken) == Apply
  }

  /** There is a proposal exactly when some candidate has the role, the line can be edited, the chosen name changes
      it, and no assertion is lost. */
  lemma ProposedIff(env: Env, source: string, locatorLine: int, d: Descriptor, cs: seq<Candidate>, threshold: real)
    requires SpansInside(env)
    ensures Propose(env, source, locatorLine, d, cs, threshold).Proposed? <==>
      && Best(env, d, cs).Some? && TargetLine(env, source, locatorLine).Some?
      && Splice(env, TargetLine(env, source, locatorLine).value, Best(env, d, cs).value.candidate.accessibleName) != TargetLine(env, source, locatorLine).value
      && env.assertions(Edited(env, source, locatorLine, Best(env, d, cs).value.candidate.accessibleName)) >= env.assertions(source)
    ensures Propose(env, source, locatorLine, d, cs, threshold).Proposed? ==>
      var p := Propose(env, source, locatorLine, d, cs, threshold).p;
      p.confidence == Best(env, d, cs).value.confidence && (p.requiresHumanReview <==> p.confidence < threshold)
  {
    if TargetLine(env, source, locatorLine).Some? && Best(env, d, cs).Some? {
      var _, _ := EditTouchesOneLine(env, source, locatorLine, Best(env, d, cs).value.candidate.accessibleName);
    }
  }

  lemma AutoAppliedWhen(env: Env, source: string, locatorLine: int, d: Descriptor, cs: seq<Candidate>, handEdited: bool, mode: Mode, allowWeaken: bool)
    requires SpansInside(env)
    ensures AutoApplied(env, source, locatorLine, d, cs, handEdited, mode, allowWeaken) <==>
      && !mode.Off? && !handEdited && Propose(env, source, locatorLine, d, cs, 0.9).Proposed?
      && Best(env, d, cs).Some? && Best(env, d, cs).value.confidence >= 0.9
  {
    ProposedIff(env, source, locatorLine, d, cs, 0.9);
  }

  /** With both thresholds at 0.9 a locator edit goes in unattended exactly when the gate is open, the line can be
      edited without losing an assertion, writing the descriptor's own name there changes it, and some candidate
      still has exactly the descriptor's role and name. */
  lemma AutoAppliedIff(env: Env, source: string, locatorLine: int, d: Descriptor, cs: seq<Candidate>, handEdited: bool, mode: Mode, allowWeaken: bool)
    requires SpansInside(env)
    ensures AutoApplied(env, source, locatorLine, d, cs, handEdited, mode, allowWeaken) <==>
      && !mode.Off? && !handEdited
      && (exists c :: c in cs && Matches(d, c))
      && TargetLine(env, source, locatorLine).Some?
      && Splice(env, TargetLine(env, source, locatorLine).value, d.accessibleName.value) != TargetLine(env, source, locatorLine).value
      && env.assertions(Edited(env, source, locatorLine, d.accessibleName.value)) >= env.assertions(source)
  {
    AutoAppliedWhen(env, source, locatorLine, d, cs, handEdited, mode, allowWeaken);
    ConfidentIffExact(env, d, cs);
    ProposedIff(env, source, locatorLine, d, cs, 0.9);
  }

  // ----- the loops -----

  lemma ScoreNext(env: Env, d: Descriptor, cs: seq<Candidate>, i: nat, scored: seq<Scored>)
    requires i < |cs|
    ensures var (confidence, rationale) := Score(env, d, cs[i]);
      scored + ScoreAll(env, d, cs[i..])
      == (if confidence > 0.0 then scored + [Scored(confidence, rationale, cs[i])] else scored) + ScoreAll(env, d, cs[i + 1..])
  {
    assert cs[i..][1..] == cs[i + 1..] && cs[i..][0] == cs[i];
  }

  /** `_best_candidate`: score, keep the positive ones, sort in place, take the first. */
  method BestCandidate(env: Env, d: Descriptor, cs: seq<Candidate>) returns (best: Option<Scored>)
    ensures best == Best(env, d, cs)
  {
    var scored: seq<Scored> := [];
    var i := 0;
    assert cs[0..] == cs;
    while i < |cs|
      invariant 0 <= i <= |cs|
      invariant scored + ScoreAll(env, d, cs[i..]) == ScoreAll(env, d, cs)
    {
      var (confidence, rationale) := Score(env, d, cs[i]);
      ScoreNext(env, d, cs, i, scored);
      if confidence > 0.0 { scored := scored + [Scored(confidence, rationale, cs[i])]; }
      i := i + 1;
    }
    assert scored == ScoreAll(env, d, cs);
    scored := SortBy(Better, scored);
    best := if scored == [] then None else Some(scored[0]);
  }

  lemma OverwritingIsEditing(env: Env, source: string, locatorLine: int, name: string)
    requires SpansInside(env) && TargetLine(env, source, locatorLine).Some?
    ensures var lines := SplitKeep(source);
      Concat(lines[locatorLine - 1 := Splice(env, lines[locatorLine - 1], name)]) == Edited(env, source, locatorLine, name)
  {
    var lines := SplitKeep(source);
    ConcatAround(lines, locatorLine - 1, Splice(env, lines[locatorLine - 1], name));
  }

  /** `propose_locator_repair`: overwrites one slot of a copy of the lines. */
  method ProposeLocatorRepair(env: Env, source: string, locatorLine: int, d: Descriptor, cs: seq<Candidate>, threshold: real)
    returns (outcome: Outcome)
    requires SpansInside(env)
    ensures outcome == Propose(env, source, locatorLine, d, cs, threshold)
  {
    if cs == [] {
      assert Best(env, d, cs) == None;
      return Nothing;
    }
    var best := BestCandidate(env, d, cs);
    if best.None? { return Nothing; }
    var lines := SplitKeep(source);
    if locatorLine < 1 || locatorLine > |lines| { return Nothing; }
    var target := lines[locatorLine - 1];
    if env.span(target).None? { return Nothing; }
    var newLine := Splice(env, target, best.value.candidate.accessibleName);
    var proposed := lines[locatorLine - 1 := newLine];
    OverwritingIsEditing(env, source, locatorLine, best.value.candidate.accessibleName);
    outcome := Conclude(env, source, Concat(proposed), locatorLine, target, newLine, best.value, threshold);
  }
}
