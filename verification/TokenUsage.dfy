/** Token accounting in the two formats, its conversions and its running merge. */
module TokenUsage {
  import opened Wrappers

  datatype PromptDetails = PromptDetails(cacheCreation: int, cacheRead: int, cached: int, created: int)

  datatype OpenAiUsage = OpenAiUsage(prompt: int, completion: int, total: int, details: Option<PromptDetails>) {
    /** Cache hits, in whichever of the two reporting styles is present. */
    function CacheRead(): int {
      if details.None? then 0
      else if details.value.cacheRead > 0 then details.value.cacheRead
      else details.value.cached
    }

    /** Newly cached tokens, in whichever of the two reporting styles is present. */
    function CacheCreation(): int {
      if details.None? then 0
      else if details.value.cacheCreation > 0 then details.value.cacheCreation
      else details.value.created
    }
  }

  datatype AnthropicUsage = AnthropicUsage(input: int, output: int, cacheCreation: int, cacheRead: int)

  const NO_USAGE := AnthropicUsage(0, 0, 0, 0)

  function Positive(n: int): int { if n > 0 then n else 0 }

  /** OpenAI counts cached tokens inside the prompt, Anthropic beside it. */
  function ToAnthropic(u: OpenAiUsage): AnthropicUsage {
    AnthropicUsage(Positive(u.prompt - u.CacheRead() - u.CacheCreation()), u.completion,
                   Positive(u.CacheCreation()), Positive(u.CacheRead()))
  }

  function ToOpenAi(u: AnthropicUsage): OpenAiUsage {
    var prompt := u.input + u.cacheCreation + u.cacheRead;
    OpenAiUsage(prompt, u.output, prompt + u.output,
                if u.cacheCreation > 0 || u.cacheRead > 0
                then Some(PromptDetails(u.cacheCreation, u.cacheRead, u.cacheCreation + u.cacheRead, 0))
                else None)
  }

  /** `o` is the account of the counts `a` that an OpenAI client or the usage record expects: all
      input is prompt, the total is the sum of all four counts, and cached tokens are listed
      when there are any. */
  predicate Accounts(o: OpenAiUsage, a: AnthropicUsage) {
    && o.prompt == a.input + a.cacheCreation + a.cacheRead
    && o.completion == a.output
    && o.total == a.input + a.output + a.cacheCreation + a.cacheRead
    && (o.details.Some? <==> a.cacheCreation > 0 || a.cacheRead > 0)
    && (o.details.Some? ==>
          && o.details.value.cacheCreation == a.cacheCreation && o.details.value.cacheRead == a.cacheRead
          && o.details.value.cached == a.cacheCreation + a.cacheRead && o.details.value.created == 0)
  }

  lemma ToOpenAiAccounts(u: AnthropicUsage)
    ensures Accounts(ToOpenAi(u), u)
    ensures ToOpenAi(u).total == ToOpenAi(u).prompt + ToOpenAi(u).completion
  {
  }

  /** Without details all prompt tokens are input. With details, each cached count is taken from
      the Anthropic style of reporting when that is positive and from the OpenAI style
      otherwise; what is left of the prompt, if anything, is input. */
  lemma BothStyles(prompt: int, completion: int, total: int, written: int, hit: int, cached: int, created: int)
    ensures ToAnthropic(OpenAiUsage(prompt, completion, total, None)) ==
            AnthropicUsage(if prompt > 0 then prompt else 0, completion, 0, 0)
    ensures var u := ToAnthropic(OpenAiUsage(prompt, completion, total,
                                             Some(PromptDetails(written, hit, cached, created))));
      var r, w := if hit > 0 then hit else cached, if written > 0 then written else created;
      && u.output == completion
      && u.cacheRead == (if r > 0 then r else 0) && u.cacheCreation == (if w > 0 then w else 0)
      && u.input == (if prompt > r + w then prompt - r - w else 0)
  {
  }

  /** The exact family of Anthropic counts that survive the trip through the OpenAI format:
      a request that only writes to the cache comes back with its cached tokens counted twice. */
  predicate SurvivesOpenAi(u: AnthropicUsage) {
    u.input >= 0 && u.cacheCreation >= 0 && u.cacheRead >= 0 && (u.cacheRead > 0 || u.cacheCreation == 0)
  }

  lemma AnthropicRoundTrip(u: AnthropicUsage)
    ensures ToAnthropic(ToOpenAi(u)) == u <==> SurvivesOpenAi(u)
  {
  }

  /** A cache write with no cache hit: the written tokens come back as a hit of the same size
      too, and are taken from the uncached ones. */
  lemma CacheWriteDoesNotSurvive(input: int, output: int, written: int)
    requires written > 0
    ensures ToAnthropic(ToOpenAi(AnthropicUsage(input, output, written, 0))) ==
            AnthropicUsage(Positive(input - written), output, written, written)
  {
  }

  /** Converting to Anthropic never loses or invents billable tokens, unless more cached
      tokens were reported than the prompt holds, or negative ones. */
  lemma TotalsConserved(u: OpenAiUsage)
    ensures ToOpenAi(ToAnthropic(u)).prompt == u.prompt <==>
            u.CacheRead() >= 0 && u.CacheCreation() >= 0 && u.CacheRead() + u.CacheCreation() <= u.prompt
    ensures ToOpenAi(ToAnthropic(u)).completion == u.completion
  {
  }

  /** The merge of one more report into the running one. */
  function Merge(dst: Option<AnthropicUsage>, src: Option<AnthropicUsage>): Option<AnthropicUsage> {
    if src.None? then dst
    else if dst.None? then src
    else Some(AnthropicUsage(Newer(dst.value.input, src.value.input),
                             Newer(dst.value.output, src.value.output),
                             Newer(dst.value.cacheCreation, src.value.cacheCreation),
                             Newer(dst.value.cacheRead, src.value.cacheRead)))
  }

  function Newer(old_: int, new_: int): int { if new_ > 0 then new_ else old_ }

  /** The counts of a reader that has `known` and is told `report`. */
  function Updated(known: AnthropicUsage, report: Option<AnthropicUsage>): AnthropicUsage {
    Merge(Some(known), report).value
  }

  /** All reports of a stream merged in order. */
  function MergeAll(reports: seq<AnthropicUsage>): Option<AnthropicUsage> {
    if reports == [] then None
    else Merge(MergeAll(reports[..|reports| - 1]), Some(reports[|reports| - 1]))
  }

  datatype Field = Input | Output | CacheCreation | CacheRead

  function Count(u: AnthropicUsage, f: Field): int {
    match f
    case Input => u.input
    case Output => u.output
    case CacheCreation => u.cacheCreation
    case CacheRead => u.cacheRead
  }

  /** Report `at` is the last one with a positive count, or the first when there is none. */
  ghost predicate IsLatest(reports: seq<AnthropicUsage>, f: Field, at: nat) {
    && at < |reports|
    && (forall j :: at < j < |reports| ==> Count(reports[j], f) <= 0)
    && (Count(reports[at], f) > 0 || at == 0)
  }

  /** Each field of the merged report is the last positive value reported for it, and the
      first value reported when none was positive. */
  lemma {:induction false} MergeKeepsLatest(reports: seq<AnthropicUsage>, f: Field) returns (at: nat)
    requires reports != []
    ensures IsLatest(reports, f, at)
    ensures MergeAll(reports).Some? && Count(MergeAll(reports).value, f) == Count(reports[at], f)
  {
    var n := |reports| - 1;
    if n == 0 {
      at := 0;
    } else {
      at := MergeKeepsLatest(reports[..n], f);
      if Count(reports[n], f) > 0 { at := n; }
    }
  }

  // ----- Counts told at the start and at the end of a message -----

  /** A count told at the start is repeated by a positive one at the end, if it is not zero. */
  predicate Repeats(atEnd: int, atStart: int) { atEnd > 0 || atStart == 0 }

  /** The end of the message tells all counts that its start has told, in a form that survives
      the OpenAI format. After a cache write without a cache hit, which does not survive, this
      takes a start that happens to tell what comes back. */
  predicate RetoldAtEnd(start: AnthropicUsage, end: AnthropicUsage) {
    && Repeats(end.output, start.output) && Repeats(end.cacheCreation, start.cacheCreation)
    && if end.cacheCreation > 0 && end.cacheRead <= 0
       then end.input <= 0 && start.input == 0 && start.cacheRead == Positive(end.cacheCreation + end.cacheRead)
       else
         && Repeats(end.input, start.input) && Repeats(end.cacheRead, start.cacheRead)
         && (end.input > 0 ==> end.cacheCreation >= 0 && end.cacheRead >= 0)
  }

  /** A reader who is told `start` and then `end`, and one who is told nothing and then what
      the OpenAI format leaves of `end`, hold the same counts. */
  lemma SameCountsIffRetold(start: AnthropicUsage, end: AnthropicUsage)
    ensures Updated(NO_USAGE, Some(ToAnthropic(ToOpenAi(end)))) == Updated(start, Some(end)) <==>
            RetoldAtEnd(start, end)
  {
  }

  /** For counts as they should be the condition is: nothing told at the start is missing at
      the end, and a cache write at the end comes with a cache hit. */
  lemma RetoldProperly(start: AnthropicUsage, end: AnthropicUsage)
    requires end.input > 0 && end.cacheCreation >= 0 && end.cacheRead >= 0
    ensures RetoldAtEnd(start, end) <==>
        && Repeats(end.output, start.output)
        && Repeats(end.cacheCreation, start.cacheCreation)
        && Repeats(end.cacheRead, start.cacheRead)
        && SurvivesOpenAi(end)
  {
  }
}
