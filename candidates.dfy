/** The parsing half of the candidate selection in `stock_recommendation_agent_mvp1`:
    the language model's reply is cut from its first `{` to its first `}`, that
    span is handed to a literal parser, and the list under `blue_chip_stocks`
    is taken from the parsed dictionary. The model call is replaced by its reply
    text and the parser (`ast.literal_eval`) by a parameter. */
module CandidateSelector {
  import opened Wrappers
  import opened Text

  /** Every failure is re-raised by the script as one `TypeError`; the variant
      records which step raised it. */
  datatype SelectorError =
    | NoOpenBrace    // content.index('{') raises ValueError
    | NoCloseBrace   // content.index('}') raises ValueError
    | Unparsable     // literal_eval rejects the span, or does not give a dictionary
    | MissingKey     // the dictionary has no 'blue_chip_stocks' entry

  /** What the literal parser yields on success: the entries of the parsed
      dictionary whose values are lists of strings. */
  type Literal = map<string, seq<string>>

  const CandidatesKey := "blue_chip_stocks"

  /** Python's `s[lo:hi]` for indices with `lo <= |s|`: empty when `hi <= lo`,
      and `hi` clipped to the length. */
  function Slice(s: string, lo: nat, hi: nat): (r: string)
    requires lo <= |s|
    ensures hi <= lo ==> r == ""
    ensures lo < hi <= |s| ==> r == s[lo..hi]
  {
    if hi <= lo then "" else s[lo..if hi <= |s| then hi else |s|]
  }

  /** `content[content.index('{'):content.index('}') + 1]`. */
  function ExtractSpan(content: string): (r: Result<string, SelectorError>)
    ensures r.Failure? <==> '{' !in content || '}' !in content
    ensures r == Failure(NoOpenBrace) <==> '{' !in content
  {
    match IndexOf(content, '{')
    case None => Failure(NoOpenBrace)
    case Some(start) =>
      match IndexOf(content, '}')
      case None => Failure(NoCloseBrace)
      case Some(end) => Success(Slice(content, start, end + 1))
  }

  /** The span runs from the first `{` through the first `}`. When that `}`
      comes later, the span opens with `{`, closes with `}` and holds no other
      `}` (braces are not balanced); when it comes earlier, the span is empty. */
  lemma ExtractSpanShape(content: string, open: nat, close: nat)
    requires open < |content| && content[open] == '{' && '{' !in content[..open]
    requires close < |content| && content[close] == '}' && '}' !in content[..close]
    ensures open < close ==> ExtractSpan(content) == Success(content[open..close + 1])
    ensures open < close ==>
      var span := content[open..close + 1];
      span[0] == '{' && span[|span| - 1] == '}' && '}' !in span[..|span| - 1]
    ensures close < open ==> ExtractSpan(content) == Success("")
  {
    IndexOfFirst(content, '{', open);
    IndexOfFirst(content, '}', close);
    assert ExtractSpan(content) == Success(Slice(content, open, close + 1));
    if open < close {
      var span := content[open..close + 1];
      forall k | 0 <= k < |span| - 1 ensures span[k] != '}' {
        assert span[k] == content[..close][open + k];
      }
    }
  }

  /** `ast.literal_eval(span)['blue_chip_stocks']` after the span is cut out.
      The empty span is never a literal: `literal_eval` raises on it whatever
      `parse` would say. */
  function CandidateList(content: string, parse: string -> Option<Literal>): (r: Result<seq<string>, SelectorError>)
    ensures ('{' !in content || '}' !in content) ==> r.Failure?
    ensures ExtractSpan(content) == Success("") ==> r == Failure(Unparsable)
    ensures r.Success? <==>
      ExtractSpan(content).Success?
      && ExtractSpan(content).value != ""
      && parse(ExtractSpan(content).value).Some?
      && CandidatesKey in parse(ExtractSpan(content).value).value
    ensures r.Success? ==> r.value == parse(ExtractSpan(content).value).value[CandidatesKey]
  {
    var span :- ExtractSpan(content);
    if span == "" then Failure(Unparsable)
    else match parse(span)
    case None => Failure(Unparsable)
    case Some(literal) =>
      if CandidatesKey in literal then Success(literal[CandidatesKey]) else Failure(MissingKey)
  }

  /** A reply whose first `}` comes before its first `{` cuts out the empty
      span, which does not parse: candidate selection fails. */
  lemma CandidateListCloseBeforeOpen(content: string, parse: string -> Option<Literal>)
    requires '{' in content && '}' in content
    requires IndexOf(content, '}').value < IndexOf(content, '{').value
    ensures CandidateList(content, parse) == Failure(Unparsable)
  {
  }

  /** The prose that the example reply wraps around its object. */
  const ReplyBefore := "Sure! "
  const ReplyAfter := " Let me know more."
  /** The object inside the example reply, without its braces. */
  const ReplyInner := "\"blue_chip_stocks\": [\"A\",\"B\"]"

  lemma ReplyInnerHasNoClose()
    ensures '}' !in ReplyInner
  {
  }

  /** A reply that wraps the object in prose still yields the list inside it:
      the reply `Sure! {"blue_chip_stocks": ["A","B"]} Let me know more.` gives ["A", "B"]. */
  lemma CandidateListInProse(parse: string -> Option<Literal>)
    requires parse("{" + ReplyInner + "}") == Some(map[CandidatesKey := ["A", "B"]])
    ensures CandidateList(ReplyBefore + "{" + ReplyInner + "}" + ReplyAfter, parse) == Success(["A", "B"])
  {
    var content := ReplyBefore + "{" + ReplyInner + "}" + ReplyAfter;
    var open, close := |ReplyBefore|, |ReplyBefore| + |ReplyInner| + 1;
    assert content[..open] == ReplyBefore;
    assert content[..close] == ReplyBefore + "{" + ReplyInner;
    assert content[open..close + 1] == "{" + ReplyInner + "}";
    ReplyInnerHasNoClose();
    ExtractSpanShape(content, open, close);
    assert ExtractSpan(content) == Success("{" + ReplyInner + "}");
  }

  /** Nested braces are cut at the inner `}`: `{"a": {"b": 1}}` gives the
      unbalanced span `{"a": {"b": 1}`. */
  lemma ExtractSpanNested()
    ensures ExtractSpan("{" + "\"a\": " + "{" + "\"b\": 1" + "}}")
         == Success("{" + "\"a\": " + "{" + "\"b\": 1" + "}")
  {
    var outer, inner := "\"a\": ", "\"b\": 1";
    var content := "{" + outer + "{" + inner + "}}";
    var close := 1 + |outer| + 1 + |inner|;
    assert content[..0] == "";
    assert content[..close] == "{" + outer + "{" + inner;
    assert content[0..close + 1] == "{" + outer + "{" + inner + "}";
    ExtractSpanShape(content, 0, close);
  }
}
