/** The resume-optimisation state machine: TAILOR once, then ATS scoring,
    then the decision rule picks PASS, STOP or IMPROVE; IMPROVE loops back to
    ATS; PASS and STOP both go to GENERATE, which ends the run. The three
    remote text-generation stages are opaque functions handed in by the
    caller; every property below holds whatever they return. */
module ResumeOptimizerGraph {
  import opened ResumeTypes
  import opened State
  import DocxGenerator

  /** The two configuration constants: the pass score and the number of
      improve rounds allowed. */
  datatype Config = Config(atsThreshold: int, maxLoops: int)

  /** The values the repository ships with. */
  const Shipped: Config := Config(85, 1)

  datatype Decision = Pass | Stop | Improve

  /** check_score: the routing decision after every ATS pass. */
  function CheckScore(atsScore: int, iterationCount: int, cfg: Config): (d: Decision)
    ensures d == Pass <==> atsScore >= cfg.atsThreshold
    ensures d == Stop <==> atsScore < cfg.atsThreshold && iterationCount >= cfg.maxLoops
    ensures d == Improve <==> atsScore < cfg.atsThreshold && iterationCount < cfg.maxLoops
  {
    if atsScore >= cfg.atsThreshold then Pass
    else if iterationCount >= cfg.maxLoops then Stop
    else Improve
  }

  /** A passing score passes whatever the iteration counter says. */
  lemma CheckScoreIgnoresCountOnPass(atsScore: int, count1: int, count2: int, cfg: Config)
    requires atsScore >= cfg.atsThreshold
    ensures CheckScore(atsScore, count1, cfg) == CheckScore(atsScore, count2, cfg) == Pass
  {
  }

  /** The remote stages, as functions of exactly the arguments the nodes
      pass them. */
  type TailorStage = (ResumeSections, string, Locks) -> Transformed
  type ScoreStage = (ResumeSections, string) -> AtsResult
  type ImproveStage = (ResumeSections, Option<Analysis>, string, Locks) -> Transformed

  /** Writing a transform result into the sections: summary, experience
      and skills come from the result, education from the frozen copy. */
  function Merge(t: Transformed, education: seq<Education>): (r: ResumeSections)
    ensures r.education == education
    ensures r.summary == t.summary && r.experience == t.experience && r.skills == t.skills
  {
    ResumeSections(t.summary, t.experience, education, t.skills)
  }

  method NodeTailor(s: ResumeOptimizerState, tailor: TailorStage)
    modifies s
    ensures s.resumeSections == Merge(tailor(old(s.resumeSections), s.jobDescription, s.originalExperiencePositions), s.originalEducation)
    ensures s.ContextUnchanged()
    ensures s.atsScore == old(s.atsScore) && s.analysis == old(s.analysis)
    ensures s.iterationCount == old(s.iterationCount)
    ensures s.passed == old(s.passed) && s.finalDocxPath == old(s.finalDocxPath)
  {
    var tailored := tailor(s.resumeSections, s.jobDescription, s.originalExperiencePositions);
    s.resumeSections := s.resumeSections.(summary := tailored.summary);
    s.resumeSections := s.resumeSections.(experience := tailored.experience);
    s.resumeSections := s.resumeSections.(skills := tailored.skills);
    s.resumeSections := s.resumeSections.(education := s.originalEducation);
  }

  method NodeAts(s: ResumeOptimizerState, score: ScoreStage)
    modifies s
    ensures s.atsScore == Some(score(s.resumeSections, s.jobDescription).score)
    ensures s.analysis == Some(score(s.resumeSections, s.jobDescription).analysis)
    ensures s.resumeSections == old(s.resumeSections)
    ensures s.ContextUnchanged()
    ensures s.iterationCount == old(s.iterationCount)
    ensures s.passed == old(s.passed) && s.finalDocxPath == old(s.finalDocxPath)
  {
    var result := score(s.resumeSections, s.jobDescription);
    s.atsScore := Some(result.score);
    s.analysis := Some(result.analysis);
  }

  method NodeImprove(s: ResumeOptimizerState, improve: ImproveStage)
    modifies s
    ensures s.resumeSections == Merge(improve(old(s.resumeSections), s.analysis, s.jobDescription, s.originalExperiencePositions), s.originalEducation)
    ensures s.iterationCount == old(s.iterationCount) + 1
    ensures s.ContextUnchanged()
    ensures s.atsScore == old(s.atsScore) && s.analysis == old(s.analysis)
    ensures s.passed == old(s.passed) && s.finalDocxPath == old(s.finalDocxPath)
  {
    var improved := improve(s.resumeSections, s.analysis, s.jobDescription, s.originalExperiencePositions);
    s.resumeSections := s.resumeSections.(summary := improved.summary);
    s.resumeSections := s.resumeSections.(experience := improved.experience);
    s.resumeSections := s.resumeSections.(skills := improved.skills);
    s.resumeSections := s.resumeSections.(education := s.originalEducation);
    s.iterationCount := s.iterationCount + 1;
  }

  /** The name the document is stored under, from a fresh unique id. */
  function FinalFileName(id: string): (name: string)
    ensures |name| == |id| + 18
    ensures name[..13] == "final_resume_" && name[|name| - 5..] == ".docx"
    ensures name[13..|name| - 5] == id
  {
    "final_resume_" + id + ".docx"
  }

  /** The header data handed to the renderer: the five contact fields and
      nothing else. */
  function UserInfoOf(s: ResumeOptimizerState): DocxGenerator.UserInfo
    reads s
  {
    DocxGenerator.UserInfo(s.fullName, s.phone, s.email, s.linkedin, s.github)
  }

  /** The final step. `id` stands for the fresh uuid; `saved` is what is
      written to `savedTo`. */
  method NodeGenerate(s: ResumeOptimizerState, id: string)
    returns (saved: seq<DocxGenerator.Paragraph>, savedTo: string)
    modifies s
    ensures savedTo == "generated/" + FinalFileName(id)
    ensures saved == DocxGenerator.Layout(s.resumeSections, UserInfoOf(s))
    ensures s.finalDocxPath == Some(FinalFileName(id)) && s.passed
    ensures s.resumeSections == old(s.resumeSections)
    ensures s.ContextUnchanged()
    ensures s.atsScore == old(s.atsScore) && s.analysis == old(s.analysis)
    ensures s.iterationCount == old(s.iterationCount)
  {
    var uniqueFilename := FinalFileName(id);
    var outputPath := "generated/" + uniqueFilename;
    var userInfo := UserInfoOf(s);
    savedTo, saved := DocxGenerator.GenerateFinalDocx(s.resumeSections, userInfo, outputPath);
    s.finalDocxPath := Some(uniqueFilename);
    s.passed := true;
  }

  // -------------------------------------------------------------------
  // The graph: nodes, edges and the run loop
  // -------------------------------------------------------------------

  datatype Node = TailorNode | AtsNode | ImproveNode | GenerateNode

  /** The conditional edges out of ATS. */
  function Route(d: Decision): Node {
    match d
    case Pass => GenerateNode
    case Stop => GenerateNode
    case Improve => ImproveNode
  }

  /** Position of a node along the edges, for the termination measure. */
  function Rank(n: Node): nat {
    match n
    case TailorNode => 3
    case AtsNode => 2
    case ImproveNode => 1
    case GenerateNode => 0
  }

  /** How many times each stage ran. */
  datatype Calls = Calls(tailor: nat, ats: nat, improve: nat, generate: nat)

  /** The contents one IMPROVE pass makes of `last`, given the analysis
      the scorer gave it. */
  function ImprovedFrom(last: ResumeSections, jd: string, locks: Locks, score: ScoreStage, improve: ImproveStage,
                        education: seq<Education>): ResumeSections
  {
    Merge(improve(last, Some(score(last, jd).analysis), jd, locks), education)
  }

  /** The contents the next ATS pass scores, given the contents already
      scored: the tailored resume first, afterwards the improvement of the
      last scored contents under the analysis the scorer gave them. */
  function NextToScore(scored: seq<ResumeSections>, start: ResumeSections, jd: string, locks: Locks,
                       education: seq<Education>, tailor: TailorStage, score: ScoreStage,
                       improve: ImproveStage): ResumeSections
  {
    if scored == [] then Merge(tailor(start, jd, locks), education)
    else ImprovedFrom(scored[|scored| - 1], jd, locks, score, improve, education)
  }

  /** Every scored content is the one NextToScore predicts from those
      before it. */
  ghost predicate Chain(scored: seq<ResumeSections>, start: ResumeSections, jd: string, locks: Locks,
                        education: seq<Education>, tailor: TailorStage, score: ScoreStage, improve: ImproveStage)
  {
    forall i :: 0 <= i < |scored| ==>
      scored[i] == NextToScore(scored[..i], start, jd, locks, education, tailor, score, improve)
  }

  lemma ChainSnoc(scored: seq<ResumeSections>, start: ResumeSections, jd: string, locks: Locks,
                  education: seq<Education>, tailor: TailorStage, score: ScoreStage, improve: ImproveStage)
    requires Chain(scored, start, jd, locks, education, tailor, score, improve)
    ensures Chain(scored + [NextToScore(scored, start, jd, locks, education, tailor, score, improve)],
                  start, jd, locks, education, tailor, score, improve)
  {
    var next := scored + [NextToScore(scored, start, jd, locks, education, tailor, score, improve)];
    forall i | 0 <= i < |next|
      ensures next[i] == NextToScore(next[..i], start, jd, locks, education, tailor, score, improve)
    {
      assert next[..i] == scored[..i] || i == |scored|;
      if i == |scored| { assert next[..i] == scored; }
    }
  }

  function Max(a: int, b: int): int {
    if a < b then b else a
  }

  /** What holds each time control reaches `node`, for a run that started
      with contents `start` and counter `ic0`. */
  ghost predicate Reached(s: ResumeOptimizerState, node: Node, calls: Calls, scored: seq<ResumeSections>,
                          start: ResumeSections, ic0: int, cfg: Config,
                          tailor: TailorStage, score: ScoreStage, improve: ImproveStage)
    reads s
  {
    && ic0 <= s.iterationCount <= Max(ic0, cfg.maxLoops)
    && calls.generate == 0
    && Chain(scored, start, s.jobDescription, s.originalExperiencePositions, s.originalEducation, tailor, score, improve)
    && |scored| == calls.ats
    && match node
       case TailorNode =>
         calls == Calls(0, 0, 0, 0) && s.resumeSections == start && s.iterationCount == ic0
       case AtsNode =>
         && FailedBefore(scored, |scored|, s.jobDescription, score, cfg)
         && calls.tailor == 1 && calls.improve == s.iterationCount - ic0 && |scored| == calls.improve
         && s.resumeSections == NextToScore(scored, start, s.jobDescription, s.originalExperiencePositions,
                                            s.originalEducation, tailor, score, improve)
       case ImproveNode =>
         && Scored(s, calls, scored, ic0, score) && FailedBefore(scored, |scored| - 1, s.jobDescription, score, cfg)
         && s.atsScore.value < cfg.atsThreshold && s.iterationCount < cfg.maxLoops
       case GenerateNode =>
         && Scored(s, calls, scored, ic0, score) && FailedBefore(scored, |scored| - 1, s.jobDescription, score, cfg)
         && (s.atsScore.value < cfg.atsThreshold ==> s.iterationCount >= cfg.maxLoops)
  }

  /** The first `n` scored contents all scored below the threshold. */
  ghost predicate FailedBefore(scored: seq<ResumeSections>, n: int, jd: string, score: ScoreStage, cfg: Config) {
    forall i :: 0 <= i < n && i < |scored| ==> score(scored[i], jd).score < cfg.atsThreshold
  }

  /** Right after an ATS pass: the last scored contents are the current
      ones, and the stored score and analysis are the scorer's. */
  ghost predicate Scored(s: ResumeOptimizerState, calls: Calls, scored: seq<ResumeSections>, ic0: int, score: ScoreStage)
    reads s
  {
    && calls.tailor == 1 && calls.improve == s.iterationCount - ic0 && |scored| == calls.improve + 1
    && s.resumeSections == scored[|scored| - 1]
    && s.resumeSections.education == s.originalEducation
    && s.atsScore == Some(score(s.resumeSections, s.jobDescription).score)
    && s.analysis == Some(score(s.resumeSections, s.jobDescription).analysis)
  }

  method StepTailor(s: ResumeOptimizerState, calls: Calls, ghost scored: seq<ResumeSections>,
                    ghost start: ResumeSections, ghost ic0: int, cfg: Config,
                    tailor: TailorStage, score: ScoreStage, improve: ImproveStage)
    returns (calls': Calls)
    requires Reached(s, TailorNode, calls, scored, start, ic0, cfg, tailor, score, improve)
    modifies s
    ensures Reached(s, AtsNode, calls', scored, start, ic0, cfg, tailor, score, improve)
    ensures s.ContextUnchanged() && s.iterationCount == old(s.iterationCount)
  {
    NodeTailor(s, tailor);
    calls' := calls.(tailor := calls.tailor + 1);
  }

  method StepAts(s: ResumeOptimizerState, calls: Calls, scored: seq<ResumeSections>,
                 ghost start: ResumeSections, ghost ic0: int, cfg: Config,
                 tailor: TailorStage, score: ScoreStage, improve: ImproveStage)
    returns (calls': Calls, scored': seq<ResumeSections>, next: Node)
    requires Reached(s, AtsNode, calls, scored, start, ic0, cfg, tailor, score, improve)
    modifies s
    ensures next == ImproveNode || next == GenerateNode
    ensures Reached(s, next, calls', scored', start, ic0, cfg, tailor, score, improve)
    ensures s.ContextUnchanged() && s.iterationCount == old(s.iterationCount)
  {
    NodeAts(s, score);
    calls' := calls.(ats := calls.ats + 1);
    ChainSnoc(scored, start, s.jobDescription, s.originalExperiencePositions, s.originalEducation, tailor, score, improve);
    scored' := scored + [s.resumeSections];
    next := Route(CheckScore(s.atsScore.value, s.iterationCount, cfg));
  }

  method StepImprove(s: ResumeOptimizerState, calls: Calls, ghost scored: seq<ResumeSections>,
                     ghost start: ResumeSections, ghost ic0: int, cfg: Config,
                     tailor: TailorStage, score: ScoreStage, improve: ImproveStage)
    returns (calls': Calls)
    requires Reached(s, ImproveNode, calls, scored, start, ic0, cfg, tailor, score, improve)
    modifies s
    ensures Reached(s, AtsNode, calls', scored, start, ic0, cfg, tailor, score, improve)
    ensures s.ContextUnchanged() && s.iterationCount == old(s.iterationCount) + 1
  {
    NodeImprove(s, improve);
    calls' := calls.(improve := calls.improve + 1);
  }

  /** The graph from TAILOR up to the point where the decision routes to
      GENERATE: TAILOR, then ATS and IMPROVE alternately. Returns how often
      each stage ran and the resume contents each ATS pass scored. */
  method RunToGenerate(s: ResumeOptimizerState, cfg: Config,
                       tailor: TailorStage, score: ScoreStage, improve: ImproveStage)
    returns (calls: Calls, scored: seq<ResumeSections>)
    modifies s
    ensures s.ContextUnchanged()
    ensures Reached(s, GenerateNode, calls, scored, old(s.resumeSections), old(s.iterationCount), cfg, tailor, score, improve)
  {
    ghost var ic0 := s.iterationCount;
    ghost var start := s.resumeSections;
    calls := Calls(0, 0, 0, 0);
    scored := [];
    var node := TailorNode;
    while node != GenerateNode
      invariant s.ContextUnchanged()
      invariant Reached(s, node, calls, scored, start, ic0, cfg, tailor, score, improve)
      decreases cfg.maxLoops - s.iterationCount, Rank(node)
    {
      match node
      case TailorNode =>
        calls := StepTailor(s, calls, scored, start, ic0, cfg, tailor, score, improve);
        node := AtsNode;
      case AtsNode =>
        calls, scored, node := StepAts(s, calls, scored, start, ic0, cfg, tailor, score, improve);
      case ImproveNode =>
        calls := StepImprove(s, calls, scored, start, ic0, cfg, tailor, score, improve);
        node := AtsNode;
    }
  }

  /** Runs the whole graph: up to the routing into GENERATE, then GENERATE,
      which ends it. Returns how often each stage ran, the resume contents
      each ATS pass scored, and the document written. */
  method Run(s: ResumeOptimizerState, cfg: Config,
             tailor: TailorStage, score: ScoreStage, improve: ImproveStage, id: string)
    returns (calls: Calls, scored: seq<ResumeSections>, saved: seq<DocxGenerator.Paragraph>, savedTo: string)
    modifies s
    // exact call counts
    ensures calls.tailor == 1 && calls.generate == 1
    ensures calls.improve == s.iterationCount - old(s.iterationCount)
    ensures calls.ats == calls.improve + 1 == |scored|
    // loop bound
    ensures old(s.iterationCount) <= s.iterationCount <= Max(old(s.iterationCount), cfg.maxLoops)
    // what was scored, and why the loop ended
    ensures Chain(scored, old(s.resumeSections), s.jobDescription, s.originalExperiencePositions,
                  s.originalEducation, tailor, score, improve)
    ensures s.resumeSections == scored[|scored| - 1]
    ensures s.atsScore == Some(score(s.resumeSections, s.jobDescription).score)
    ensures s.analysis == Some(score(s.resumeSections, s.jobDescription).analysis)
    ensures forall i :: 0 <= i < |scored| - 1 ==> score(scored[i], s.jobDescription).score < cfg.atsThreshold
    ensures s.atsScore.value < cfg.atsThreshold ==> s.iterationCount >= cfg.maxLoops
    // the invariants and the final step
    ensures s.resumeSections.education == s.originalEducation
    ensures s.ContextUnchanged()
    ensures s.passed && s.finalDocxPath == Some(FinalFileName(id))
    ensures savedTo == "generated/" + FinalFileName(id)
    ensures saved == DocxGenerator.Layout(s.resumeSections, UserInfoOf(s))
  {
    calls, scored := RunToGenerate(s, cfg, tailor, score, improve);
    assert Scored(s, calls, scored, old(s.iterationCount), score);
    assert FailedBefore(scored, |scored| - 1, s.jobDescription, score, cfg);
    saved, savedTo := NodeGenerate(s, id);
    calls := calls.(generate := calls.generate + 1);
  }

  /** A request from start to finish with the shipped configuration: a
      fresh state over the stored sections (education frozen from them, no
      experience locks), then the graph. With MAX_LOOPS = 1 the resume is
      scored once or twice and improved at most once, and a second pass
      happens only after a failing first score. */
  method Invoke(sections: ResumeSections, jd: string, phone: Option<string>, fullName: Option<string>,
                email: Option<string>, linkedin: Option<string>, github: Option<string>,
                tailor: TailorStage, score: ScoreStage, improve: ImproveStage, id: string)
    returns (calls: Calls, iterations: int, finalScore: int, finalPath: Option<string>)
    ensures calls.tailor == 1 && calls.generate == 1
    ensures 1 <= calls.ats <= 2 && calls.improve == iterations == calls.ats - 1
    ensures var tailored := Merge(tailor(sections, jd, map[]), sections.education);
      && (iterations == 1 <==> score(tailored, jd).score < Shipped.atsThreshold)
      && (iterations == 0 ==> finalScore == score(tailored, jd).score)
      && (iterations == 1 ==> finalScore == score(ImprovedFrom(tailored, jd, map[], score, improve, sections.education), jd).score)
    ensures finalScore < Shipped.atsThreshold ==> iterations == 1
    ensures finalPath == Some(FinalFileName(id))
  {
    var s := new ResumeOptimizerState(sections, sections.education, map[], jd, phone, fullName, email, linkedin, github);
    var scored, saved, savedTo;
    calls, scored, saved, savedTo := Run(s, Shipped, tailor, score, improve, id);
    iterations := s.iterationCount;
    finalScore := s.atsScore.value;
    ghost var tailored := Merge(tailor(sections, jd, map[]), sections.education);
    assert scored[0] == tailored;
    if iterations == 1 {
      assert scored[1] == ImprovedFrom(tailored, jd, map[], score, improve, sections.education);
    }
    finalPath := s.finalDocxPath;
  }
}
