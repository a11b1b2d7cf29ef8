/**
 * What the OpenAI and Gemini clients have in common: the tools prompt, the conversion of a
 * conversation into provider turns, and the accumulation of a streamed reply.
 */
module AiClient {
  import opened Wrappers
  import opened JsText
  import opened Seqs
  import opened ChatTypes

  /** The system prompt `setAvailableTools` adds: a heading, then the tool prompts separated by blank lines. */
  function ToolsPrompt(prompts: seq<string>): string {
    "## Available Tools\n" + Join(prompts, "\n\n")
  }

  /**
   * A conversation as provider turns: blank messages skipped, the others trimmed and made into
   * a turn by `make`, in order.
   */
  function Turns<U>(messages: seq<AiChatMessage>, make: (ChatRole, string) -> U): seq<U> {
    FlatMap(messages, TurnOf(make))
  }

  /** The turn one message becomes, if any. */
  function TurnOf<U>(make: (ChatRole, string) -> U): AiChatMessage -> seq<U> {
    (m: AiChatMessage) => if AllSpace(m.content) then [] else [make(m.role, Trim(m.content))]
  }

  /** One message becomes no turn when it is blank, else one turn of its trimmed text. */
  lemma TurnsSingle<U>(m: AiChatMessage, make: (ChatRole, string) -> U)
    ensures Turns([m], make) == if AllSpace(m.content) then [] else [make(m.role, Trim(m.content))]
  {
    assert [m][1..] == [];
    assert Turns([m], make) == TurnOf(make)(m) + FlatMap([], TurnOf(make));
  }

  /** Converting two pieces of a conversation one after the other converts the whole. */
  lemma TurnsAppend<U>(a: seq<AiChatMessage>, b: seq<AiChatMessage>, make: (ChatRole, string) -> U)
    ensures Turns(a + b, make) == Turns(a, make) + Turns(b, make)
  {
    FlatMapAppend(a, b, TurnOf(make));
  }

  function Trimmed(m: AiChatMessage): AiChatMessage {
    AiChatMessage(m.role, Trim(m.content))
  }

  function Make<U>(make: (ChatRole, string) -> U): AiChatMessage -> U {
    (m: AiChatMessage) => make(m.role, m.content)
  }

  /** The conversion is: keep the messages with text, trim them, make each a turn. */
  lemma {:induction false} TurnsAreFilterMap<U>(messages: seq<AiChatMessage>, make: (ChatRole, string) -> U)
    ensures Turns(messages, make) == Map(Map(Filter(messages, HasText), Trimmed), Make(make))
  {
    if messages != [] {
      var m := messages[0];
      var rest := messages[1..];
      assert messages == [m] + rest;
      TurnsAreFilterMap(rest, make);
      FilterCons(m, rest, HasText);
      if HasText(m) {
        var kept := Filter(rest, HasText);
        MapCons(m, kept, Trimmed);
        MapCons(Trimmed(m), Map(kept, Trimmed), Make(make));
      }
    }
  }

  /** The texts of the streamed chunks that have any, in order. */
  function Chunks(texts: seq<Option<string>>): seq<string> {
    if texts == [] then []
    else Chunks(texts[..|texts| - 1]) + (if Truthy(texts[|texts| - 1]) then [texts[|texts| - 1].value] else [])
  }

  /** Every chunk handed on has text, and leaving out the empty ones loses nothing of the reply. */
  lemma {:induction false} ChunksFacts(texts: seq<Option<string>>)
    ensures forall k :: 0 <= k < |Chunks(texts)| ==> Chunks(texts)[k] != ""
    ensures |Chunks(texts)| <= |texts|
    ensures Concat(Chunks(texts)) == Concat(Map(texts, TextOrEmpty))
  {
    if texts != [] {
      var init := texts[..|texts| - 1];
      var last := texts[|texts| - 1];
      ChunksFacts(init);
      var all := Map(texts, TextOrEmpty);
      assert all[..|all| - 1] == Map(init, TextOrEmpty);
      assert Concat(all) == Concat(Map(init, TextOrEmpty)) + TextOrEmpty(last);
      if Truthy(last) {
        var c := Chunks(init) + [last.value];
        assert c[..|c| - 1] == Chunks(init);
        assert Concat(c) == Concat(Chunks(init)) + last.value;
      } else {
        assert Chunks(texts) == Chunks(init);
        assert TextOrEmpty(last) == "";
      }
    }
  }

  /** `chunk.text ?? ""`. */
  function TextOrEmpty(text: Option<string>): string {
    text.Coalesce("")
  }

  /**
   * The streaming loop: each chunk with text is appended to the result and handed to the
   * callback, in order.
   */
  method Stream(texts: seq<Option<string>>) returns (result: string, callbacks: seq<string>)
    ensures callbacks == Chunks(texts)
    ensures result == Concat(callbacks)
  {
    result := "";
    callbacks := [];
    for i := 0 to |texts|
      invariant callbacks == Chunks(texts[..i])
      invariant result == Concat(callbacks)
    {
      assert texts[..i + 1][..i] == texts[..i];
      if Truthy(texts[i]) {
        var c := callbacks + [texts[i].value];
        assert c[..|c| - 1] == callbacks;
        result := result + texts[i].value;
        callbacks := c;
      }
    }
    assert texts[..|texts|] == texts;
  }
}
