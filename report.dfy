/** The report built at the end of `stock_recommendation_agent_mvp1`: a fixed
    header followed by one section per processed candidate. The agent run for a
    candidate (LangChain's executor over the model and the two tools) is given as
    the function `agent` from candidate name to the agent's `output` text. */
module Report {
  import opened Wrappers
  import opened Text
  import CandidateSelector

  const Header := "Here are some stock trading recommendations for today: \n\n"

  /** Only `blue_chip_stock_list[:1]` is processed. */
  const CandidateLimit: nat := 1

  /** The candidates the loop visits: the first `CandidateLimit` of them, in order. */
  function Processed(candidates: seq<string>): (p: seq<string>)
    ensures |p| == if |candidates| < CandidateLimit then |candidates| else CandidateLimit
    ensures p == candidates[..|p|]
  {
    if |candidates| < CandidateLimit then candidates else candidates[..CandidateLimit]
  }

  /** One candidate's section: its name, a colon, a blank line, the agent's
      answer and two blank lines. */
  function Section(name: string, output: string): (s: string)
    ensures name + ":" <= s
  {
    name + ":" + "\n\n" + output + "\n\n\n"
  }

  /** The sections of the visited candidates, in visiting order. */
  function SectionsOf(names: seq<string>, agent: string -> string): seq<string>
  {
    seq(|names|, i requires 0 <= i < |names| => Section(names[i], agent(names[i])))
  }

  /** The report after visiting `names`. */
  function ReportText(names: seq<string>, agent: string -> string): string
  {
    Header + Join("", SectionsOf(names, agent))
  }

  /** The loop over `blue_chip_stock_list[:1]` that grows `ai_msg_content` with `+=`. */
  method AssembleReport(candidates: seq<string>, agent: string -> string) returns (report: string)
    ensures report == ReportText(Processed(candidates), agent)
    ensures Header <= report
  {
    var processed := Processed(candidates);
    report := Header;
    for i := 0 to |processed|
      invariant report == ReportText(processed[..i], agent)
    {
      var name := processed[i];
      var article := agent(name);
      article := name + ":" + "\n\n" + article;
      report := report + article;
      report := report + "\n\n\n";
      var before := SectionsOf(processed[..i], agent);
      assert SectionsOf(processed[..i + 1], agent) == before + [Section(name, agent(name))];
      JoinEmptySeparatorSnoc(before, Section(name, agent(name)));
    }
    assert processed[..|processed|] == processed;
  }

  /** A report always begins with the fixed header and holds exactly
      `min(1, |candidates|)` sections, each the candidate's name followed by
      the agent's answer. */
  lemma ReportShape(candidates: seq<string>, agent: string -> string)
    ensures Header <= ReportText(Processed(candidates), agent)
    ensures |SectionsOf(Processed(candidates), agent)| == if |candidates| == 0 then 0 else 1
    ensures |candidates| > 0 ==>
      ReportText(Processed(candidates), agent) == Header + Section(candidates[0], agent(candidates[0]))
  {
    if |candidates| > 0 {
      var ss := SectionsOf(Processed(candidates), agent);
      assert |ss| == 1;
    }
  }

  /** The report only grows: the report after the first `k` candidates is a
      prefix of the report after all of them. */
  lemma ReportPrefix(names: seq<string>, agent: string -> string, k: nat)
    requires k <= |names|
    ensures ReportText(names[..k], agent) <= ReportText(names, agent)
  {
    var ss := SectionsOf(names, agent);
    assert SectionsOf(names[..k], agent) == ss[..k];
    JoinPrefix("", ss, k);
  }

  /** Sections follow candidate order: for two visited candidates, the first
      one's section comes right after the header and the second one's after it. */
  lemma ReportOrder(x: string, y: string, agent: string -> string)
    ensures ReportText([x, y], agent) == Header + Section(x, agent(x)) + Section(y, agent(y))
  {
    var ss := SectionsOf([x, y], agent);
    assert ss == [Section(x, agent(x))] + [Section(y, agent(y))];
    JoinEmptySeparatorSnoc([Section(x, agent(x))], Section(y, agent(y)));
  }

  /** A single candidate whose agent answers "Buy". */
  lemma ReportSingleCandidate(agent: string -> string)
    requires agent("Tata Motors") == "Buy"
    ensures ReportText(Processed(["Tata Motors"]), agent) == Header + "Tata Motors:\n\nBuy\n\n\n"
  {
    ReportShape(["Tata Motors"], agent);
  }

  /** The run: select the candidates from the model's reply, then build the
      report over the processed ones. A failed selection is fatal: no report. */
  method RunPipeline(reply: string, parse: string -> Option<CandidateSelector.Literal>, agent: string -> string)
    returns (r: Result<string, CandidateSelector.SelectorError>)
    ensures r.Failure? <==> CandidateSelector.CandidateList(reply, parse).Failure?
    ensures r.Failure? ==> r.error == CandidateSelector.CandidateList(reply, parse).error
    ensures r.Success? ==>
      r.value == ReportText(Processed(CandidateSelector.CandidateList(reply, parse).value), agent)
  {
    var candidates :- CandidateSelector.CandidateList(reply, parse);
    var report := AssembleReport(candidates, agent);
    return Success(report);
  }
}
