/** core/mcp/agent.go, mergeUsage. Costs are reals. */
module Usage {
  import opened Options

  datatype PromptDetails = PromptDetails(
    text: int, audio: int, image: int, cachedRead: int, cachedWrite: int, unlisted: Option<string>)

  datatype CompletionDetails = CompletionDetails(
    text: int, accepted: int, audio: int, reasoning: int, rejected: int,
    citations: Option<int>, searches: Option<int>, images: Option<int>)

  datatype Cost = Cost(
    input: real, output: real, reasoning: real, citations: real, searches: real, request: real, total: real)

  /** `unlisted` stands for the fields mergeUsage does not mention. */
  datatype Usage = Usage(
    prompt: int, completion: int, total: int,
    promptDetails: Option<PromptDetails>, completionDetails: Option<CompletionDetails>, cost: Option<Cost>,
    unlisted: Option<string>)

  const NO_PROMPT := PromptDetails(0, 0, 0, 0, 0, None)
  const NO_COMPLETION := CompletionDetails(0, 0, 0, 0, 0, None, None, None)
  const NO_COST := Cost(0.0, 0.0, 0.0, 0.0, 0.0, 0.0, 0.0)

  function Or<T>(o: Option<T>, d: T): T { if o.Some? then o.value else d }

  function AddCounts(a: Option<int>, b: Option<int>): Option<int> {
    if a.Some? || b.Some? then Some(Or(a, 0) + Or(b, 0)) else None
  }

  function AddPrompt(a: Option<PromptDetails>, b: Option<PromptDetails>): Option<PromptDetails> {
    if a.None? && b.None? then None
    else
      var x, y := Or(a, NO_PROMPT), Or(b, NO_PROMPT);
      Some(PromptDetails(x.text + y.text, x.audio + y.audio, x.image + y.image,
                         x.cachedRead + y.cachedRead, x.cachedWrite + y.cachedWrite, None))
  }

  function AddCompletion(a: Option<CompletionDetails>, b: Option<CompletionDetails>): Option<CompletionDetails> {
    if a.None? && b.None? then None
    else
      var x, y := Or(a, NO_COMPLETION), Or(b, NO_COMPLETION);
      Some(CompletionDetails(
             x.text + y.text, x.accepted + y.accepted, x.audio + y.audio, x.reasoning + y.reasoning, x.rejected + y.rejected,
             AddCounts(x.citations, y.citations), AddCounts(x.searches, y.searches), AddCounts(x.images, y.images)))
  }

  function AddCost(a: Option<Cost>, b: Option<Cost>): Option<Cost> {
    if a.None? && b.None? then None
    else
      var x, y := Or(a, NO_COST), Or(b, NO_COST);
      Some(Cost(x.input + y.input, x.output + y.output, x.reasoning + y.reasoning, x.citations + y.citations,
                x.searches + y.searches, x.request + y.request, x.total + y.total))
  }

  function Merge(base: Option<Usage>, add: Option<Usage>): Option<Usage> {
    if add.None? then base
    else if base.None? then add
    else
      var x, y := base.value, add.value;
      Some(Usage(x.prompt + y.prompt, x.completion + y.completion, x.total + y.total,
                 AddPrompt(x.promptDetails, y.promptDetails), AddCompletion(x.completionDetails, y.completionDetails),
                 AddCost(x.cost, y.cost), None))
  }

  // ----- what merging means -----

  function TokenNumbers(u: Option<Usage>): seq<int> {
    if u.None? then [0, 0, 0] else [u.value.prompt, u.value.completion, u.value.total]
  }

  function PromptNumbers(p: Option<PromptDetails>): seq<int> {
    var x := Or(p, NO_PROMPT);
    [x.text, x.audio, x.image, x.cachedRead, x.cachedWrite]
  }

  function CompletionNumbers(c: Option<CompletionDetails>): seq<int> {
    var x := Or(c, NO_COMPLETION);
    [x.text, x.accepted, x.audio, x.reasoning, x.rejected, Or(x.citations, 0), Or(x.searches, 0), Or(x.images, 0)]
  }

  /** The listed token counts, an absent one counting as zero. */
  function Counts(u: Option<Usage>): seq<int> {
    TokenNumbers(u)
    + PromptNumbers(if u.Some? then u.value.promptDetails else None)
    + CompletionNumbers(if u.Some? then u.value.completionDetails else None)
  }

  /** The listed costs, an absent one counting as zero. */
  function Costs(u: Option<Usage>): seq<real> {
    var x := Or(if u.Some? then u.value.cost else None, NO_COST);
    [x.input, x.output, x.reasoning, x.citations, x.searches, x.request, x.total]
  }

  function Sum(a: seq<int>, b: seq<int>): seq<int>
    requires |a| == |b|
  {
    seq(|a|, i requires 0 <= i < |a| => a[i] + b[i])
  }

  function SumReal(a: seq<real>, b: seq<real>): seq<real>
    requires |a| == |b|
  {
    seq(|a|, i requires 0 <= i < |a| => a[i] + b[i])
  }

  lemma SumConcat(a: seq<int>, b: seq<int>, c: seq<int>, d: seq<int>)
    requires |a| == |c| && |b| == |d|
    ensures Sum(a + b, c + d) == Sum(a, c) + Sum(b, d)
  {
  }

  lemma PromptAdds(a: Option<PromptDetails>, b: Option<PromptDetails>)
    ensures PromptNumbers(AddPrompt(a, b)) == Sum(PromptNumbers(a), PromptNumbers(b))
  {
  }

  lemma CompletionAdds(a: Option<CompletionDetails>, b: Option<CompletionDetails>)
    ensures CompletionNumbers(AddCompletion(a, b)) == Sum(CompletionNumbers(a), CompletionNumbers(b))
  {
  }

  lemma TokensAdd(a: Option<Usage>, b: Option<Usage>)
    ensures TokenNumbers(Merge(a, b)) == Sum(TokenNumbers(a), TokenNumbers(b))
  {
    hide AddPrompt, AddCompletion, AddCost;
  }

  lemma CostsAdd(a: Option<Usage>, b: Option<Usage>)
    ensures Costs(Merge(a, b)) == SumReal(Costs(a), Costs(b))
  {
    hide AddPrompt, AddCompletion;
  }

  /** Merging adds up every listed token count and every listed cost. */
  lemma MergeAdds(a: Option<Usage>, b: Option<Usage>)
    ensures |Counts(a)| == |Counts(b)| == 16 && Counts(Merge(a, b)) == Sum(Counts(a), Counts(b))
    ensures |Costs(a)| == |Costs(b)| == 7 && Costs(Merge(a, b)) == SumReal(Costs(a), Costs(b))
  {
    hide AddPrompt, AddCompletion, AddCost, PromptNumbers, CompletionNumbers, TokenNumbers, Costs, Sum, SumReal;
    var pa, pb := if a.Some? then a.value.promptDetails else None, if b.Some? then b.value.promptDetails else None;
    var ca, cb := if a.Some? then a.value.completionDetails else None, if b.Some? then b.value.completionDetails else None;
    TokensAdd(a, b);
    CostsAdd(a, b);
    AbsentAdds(pa, pb);
    AbsentAddsToo(ca, cb);
    Lengths(a, pa, ca);
    Lengths(b, pb, cb);
    SumConcat(TokenNumbers(a) + PromptNumbers(pa), CompletionNumbers(ca), TokenNumbers(b) + PromptNumbers(pb), CompletionNumbers(cb));
    SumConcat(TokenNumbers(a), PromptNumbers(pa), TokenNumbers(b), PromptNumbers(pb));
  }

  lemma Lengths(u: Option<Usage>, p: Option<PromptDetails>, c: Option<CompletionDetails>)
    ensures |TokenNumbers(u)| == 3 && |PromptNumbers(p)| == 5 && |CompletionNumbers(c)| == 8 && |Costs(u)| == 7
  {
  }

  /** Also when one side has no usage at all. */
  lemma AbsentAdds(a: Option<PromptDetails>, b: Option<PromptDetails>)
    ensures PromptNumbers(AddPrompt(a, b)) == Sum(PromptNumbers(a), PromptNumbers(b))
    ensures PromptNumbers(a) == Sum(PromptNumbers(a), PromptNumbers(None)) == Sum(PromptNumbers(None), PromptNumbers(a))
    ensures PromptNumbers(b) == Sum(PromptNumbers(b), PromptNumbers(None)) == Sum(PromptNumbers(None), PromptNumbers(b))
  {
    PromptAdds(a, b);
  }

  lemma AbsentAddsToo(a: Option<CompletionDetails>, b: Option<CompletionDetails>)
    ensures CompletionNumbers(AddCompletion(a, b)) == Sum(CompletionNumbers(a), CompletionNumbers(b))
    ensures CompletionNumbers(a) == Sum(CompletionNumbers(a), CompletionNumbers(None)) == Sum(CompletionNumbers(None), CompletionNumbers(a))
    ensures CompletionNumbers(b) == Sum(CompletionNumbers(b), CompletionNumbers(None)) == Sum(CompletionNumbers(None), CompletionNumbers(b))
  {
    CompletionAdds(a, b);
  }

  /** Order does not matter, nor grouping, and no usage is the identity. */
  lemma MergeCommutes(a: Option<Usage>, b: Option<Usage>)
    ensures Merge(a, b) == Merge(b, a)
  {
  }

  lemma DetailsAssociate(a: Option<PromptDetails>, b: Option<PromptDetails>, c: Option<PromptDetails>)
    ensures AddPrompt(AddPrompt(a, b), c) == AddPrompt(a, AddPrompt(b, c))
  {
  }

  lemma CompletionAssociates(a: Option<CompletionDetails>, b: Option<CompletionDetails>, c: Option<CompletionDetails>)
    ensures AddCompletion(AddCompletion(a, b), c) == AddCompletion(a, AddCompletion(b, c))
  {
  }

  lemma CostAssociates(a: Option<Cost>, b: Option<Cost>, c: Option<Cost>)
    ensures AddCost(AddCost(a, b), c) == AddCost(a, AddCost(b, c))
  {
  }

  lemma MergeAssociates(a: Option<Usage>, b: Option<Usage>, c: Option<Usage>)
    ensures Merge(Merge(a, b), c) == Merge(a, Merge(b, c))
  {
    hide AddPrompt, AddCompletion, AddCost;
    if a.Some? && b.Some? && c.Some? {
      DetailsAssociate(a.value.promptDetails, b.value.promptDetails, c.value.promptDetails);
      CompletionAssociates(a.value.completionDetails, b.value.completionDetails, c.value.completionDetails);
      CostAssociates(a.value.cost, b.value.cost, c.value.cost);
    }
  }

  lemma MergeIdentity(a: Option<Usage>)
    ensures Merge(a, None) == a && Merge(None, a) == a
  {
  }
}
