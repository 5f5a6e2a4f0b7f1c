/**
 * Messages, speakers and the one call the session makes to the language
 * model, `call_llm` (app.py:28-46). The model itself is an oracle: a
 * `Backend` is either missing (no usable API key, so no client) or a total
 * function from the message list and the sampling choice to a reply or a
 * raised exception. Every property proved about the session therefore holds
 * for every possible response.
 */
module Chat {
  import opened Text

  /** The four council factions, in the source's dictionary keys. */
  datatype Faction = Rational | Emotional | Conservative | Adventure

  /**
   * Speakers of a message. `User`, `System` and `Assistant` are the roles the
   * model API understands; `Detective`, `Speaker(f)` and `Ferryman` are the
   * roles of the display transcript.
   */
  datatype Role = User | System | Assistant | Detective | Speaker(faction: Faction) | Ferryman

  /** A `{role, content}` record. */
  datatype Msg = Msg(role: Role, content: string)

  /** What one request to the model service yields. */
  datatype Reply = Content(text: string) | Raised(description: string)

  /**
   * The model service. `elevated` is the source's `temperature > 0.8`, which
   * only the verdict call (temperature 0.9) satisfies; the default is 0.7.
   */
  datatype Backend = Offline | Online(complete: (seq<Msg>, bool) -> Reply)

  const ThinkOpen := "<think>"
  const ThinkClose := "</think>"

  /** The reply every call gives when there is no client. */
  const Placeholder := "\U{26A0}\U{FE0F} (\U{6A21}\U{62DF}\U{56DE}\U{590D}) \U{8BF7}\U{68C0}\U{67E5} API Key \U{8FDE}\U{63A5}\U{3002}"

  /** The system note appended to an elevated-temperature request. */
  const WarmToneNote := "Please answer in a warm, human tone."

  const ErrorPrefix := "Error: "

  /** The messages sent to the service: the system prompt first, the warm-tone note last when elevated. */
  function FullMessages(system: string, history: seq<Msg>, elevated: bool): (ms: seq<Msg>)
    ensures |ms| == 1 + |history| + (if elevated then 1 else 0)
    ensures ms[0] == Msg(System, system) && ms[1..1 + |history|] == history
    ensures elevated ==> ms[|ms| - 1] == Msg(System, WarmToneNote)
  {
    [Msg(System, system)] + history + (if elevated then [Msg(System, WarmToneNote)] else [])
  }

  /**
   * `re.sub(r'<think>.*?</think>', '', s, flags=re.DOTALL)`: scanning left to
   * right, an opening marker that has a closing marker somewhere after it is
   * removed together with everything up to and including the first such
   * closing marker.
   */
  function RemoveThinkBlocks(s: string): (r: string)
    ensures |r| <= |s|
    decreases |s|
  {
    if s == [] then []
    else if ThinkOpen <= s && Contains(s[|ThinkOpen|..], ThinkClose) then
      RemoveThinkBlocks(s[|ThinkOpen| + IndexOf(s[|ThinkOpen|..], ThinkClose) + |ThinkClose|..])
    else [s[0]] + RemoveThinkBlocks(s[1..])
  }

  /** Without a closing marker the pattern cannot match, so the substitution changes nothing. */
  lemma {:induction false} RemoveThinkBlocksInert(s: string)
    requires !Contains(s, ThinkClose)
    ensures RemoveThinkBlocks(s) == s
    decreases |s|
  {
    if s != [] {
      if ThinkOpen <= s && Contains(s[|ThinkOpen|..], ThinkClose) {
        assert s[|ThinkOpen|..] == s[|ThinkOpen|..|s|];
        ContainsInSlice(s, ThinkClose, |ThinkOpen|, |s|);
        assert false;
      }
      if Contains(s[1..], ThinkClose) {
        assert s[1..] == s[1..|s|];
        ContainsInSlice(s, ThinkClose, 1, |s|);
        assert false;
      }
      RemoveThinkBlocksInert(s[1..]);
    }
  }

  /** The text after the last `</think>` holds none, so the regular expression leaves it alone. */
  lemma TailInert(content: string)
    ensures var tail := if Contains(content, ThinkClose) then AfterLast(content, ThinkClose) else content;
      && tail == AfterLast(content, ThinkClose)
      && !Contains(tail, ThinkClose)
      && RemoveThinkBlocks(tail) == tail
  {
    RemoveThinkBlocksInert(AfterLast(content, ThinkClose));
  }

  /**
   * The clean-up of a completed reply (app.py:44-45): keep what follows the
   * last `</think>` if there is one, remove `<think>...</think>` blocks, strip
   * whitespace. The result never holds a closing marker.
   */
  function StripReasoning(content: string): (r: string)
    ensures !Contains(r, ThinkClose)
  {
    var tail := if Contains(content, ThinkClose) then AfterLast(content, ThinkClose) else content;
    var r := Trim(RemoveThinkBlocks(tail));
    assert !Contains(r, ThinkClose) by {
      TailInert(content);
      if Contains(r, ThinkClose) {
        ContainsTransitive(tail, r, ThinkClose);
      }
    }
    r
  }

  /**
   * Once the last `</think>` has been cut off the regular expression can no
   * longer match: the cleaned reply is the stripped text after the last
   * closing marker, or the whole stripped reply when there is none.
   */
  lemma StripReasoningKeepsTail(content: string)
    ensures StripReasoning(content) == Trim(AfterLast(content, ThinkClose))
    ensures !Contains(content, ThinkClose) ==> StripReasoning(content) == Trim(content)
  {
    TailInert(content);
  }

  /**
   * `call_llm(system_prompt, messages_history, temperature)`: the placeholder
   * without a client, `"Error: ..."` when the request raises, the cleaned
   * reply otherwise.
   */
  function CallLlm(llm: Backend, system: string, history: seq<Msg>, elevated: bool): string
  {
    match llm
    case Offline => Placeholder
    case Online(complete) =>
      match complete(FullMessages(system, history, elevated), elevated)
      case Content(text) => StripReasoning(text)
      case Raised(description) => ErrorPrefix + description
  }

  /**
   * The three shapes of a model answer, for every service: the placeholder when
   * offline, the error text when the request raised, and otherwise the stripped
   * reply, which then holds no `</think>`.
   */
  lemma CallLlmShapes(llm: Backend, system: string, history: seq<Msg>, elevated: bool)
    ensures llm.Offline? ==> CallLlm(llm, system, history, elevated) == Placeholder
    ensures llm.Online? ==>
      var reply := llm.complete(FullMessages(system, history, elevated), elevated);
      && (reply.Raised? ==> CallLlm(llm, system, history, elevated) == ErrorPrefix + reply.description)
      && (reply.Content? ==>
            && CallLlm(llm, system, history, elevated) == Trim(AfterLast(reply.text, ThinkClose))
            && !Contains(CallLlm(llm, system, history, elevated), ThinkClose))
  {
    if llm.Online? {
      var reply := llm.complete(FullMessages(system, history, elevated), elevated);
      if reply.Content? {
        StripReasoningKeepsTail(reply.text);
      }
    }
  }
}
