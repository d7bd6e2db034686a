/** Token counts: what the conversions between the three APIs keep of them. */
module Usages {
  import opened Common
  import opened ChatChunks
  import P = ResponsesProtocol
  import R = ResponsesAssembly
  import opened AnthropicProtocol
  import A = AnthropicAssembly
  import E = AnthropicEvents

  /** anthropicUsageFromResponsesUsage */
  function AnthropicOf(input: int, output: int, cached: Option<int>, creation: int): Usage {
    var read := if cached.Some? then cached.value else 0;
    Usage(if input - read - creation < 0 then 0 else input - read - creation, output, read, creation)
  }

  function AnthropicOfResponses(u: P.ResponsesUsage): Usage {
    AnthropicOf(u.input, u.output, if u.details.Some? then Some(u.details.value.cached) else None, u.cacheCreationInput)
  }

  /** Some details counts are positive. */
  predicate Counted(d: TokenDetails) {
    d.cached > 0 || d.creation > 0 || d.write > 0
  }

  /** Cache writes are counted under either of two names, the first of which wins. */
  function Written(d: TokenDetails): int {
    if d.write > 0 then d.write else d.creation
  }

  /** The usage of Chat Completions is the same in Anthropic terms whether converted
      directly or by way of the Responses API, exactly unless its details hold no
      positive count but a negative one. */
  lemma TwoWaysAgree(u: ChatUsage)
    ensures A.AnthropicUsageOf(u) == AnthropicOfResponses(R.ResponsesUsageOf(u))
            <==> u.details.Some? && !Counted(u.details.value) ==> u.details.value.cached == 0 && u.details.value.creation == 0
  {
  }

  /** No token is lost or doubled: fresh, read and written input make up the prompt,
      or what was read and written when that is more. */
  lemma TokensAddUp(u: ChatUsage)
    ensures var a := A.AnthropicUsageOf(u);
            var cached := if u.details.Some? then u.details.value.cached else 0;
            var written := if u.details.Some? then Written(u.details.value) else 0;
            && a.output == u.completion && a.cacheRead == cached && a.cacheCreation == written && a.input >= 0
            && (cached + written <= u.prompt ==> a.input + a.cacheRead + a.cacheCreation == u.prompt)
            && (cached + written > u.prompt ==> a.input == 0)
  {
  }

  /** The Responses counts are those of Chat Completions; a missing total is made up,
      and details without any count are dropped. */
  lemma CountsKept(u: ChatUsage)
    ensures var r := R.ResponsesUsageOf(u);
            && r.input == u.prompt && r.output == u.completion
            && (u.total != 0 ==> r.total == u.total) && (u.total == 0 ==> r.total == r.input + r.output)
            && (u.details.Some? && Counted(u.details.value) ==>
                  r.details == u.details && r.cacheCreationInput == Written(u.details.value))
            && (u.details.None? || !Counted(u.details.value) ==> r.details.None? && r.cacheCreationInput == 0)
  {
  }

  /** Anthropic counts come back from the Responses API as they were, exactly when
      fresh and cached input are not negative. */
  lemma TokensComeBack(t: E.Tokens)
    ensures var u := E.UsageOf(t);
            AnthropicOf(u.input, u.output, u.cached, u.cacheCreation) == Usage(t.input, t.output, t.cacheRead, t.cacheCreation)
            <==> t.input >= 0 && t.cacheRead >= 0
    ensures E.UsageOf(t).total == t.input + t.cacheRead + t.cacheCreation + t.output
  {
  }
}
