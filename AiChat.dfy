/** The stone-expert chat page: the keyword table that picks a canned answer, and the
    send handler that appends the user's message. */
module AiChat {
  import opened Common
  import opened Text

  /** A chat message; the timestamp is not modelled. */
  datatype Message = Message(id: string, content: string, isUser: bool)

  const Greeting := "Hello! I'm your Stone Expert AI assistant. I can help you with questions about stone materials, quarries, monuments, restoration techniques, and more. What would you like to know?"

  const CarraraAnswer := "Carrara marble is a high-quality white marble quarried from the Carrara region of Tuscany, Italy. It has been prized since Roman times for its pure white color and fine grain structure, making it ideal for sculpture and architecture."
  const GraniteAnswer := "To identify granite quality, look for: uniform color distribution, fine to medium grain size, minimal visible cracks, high density, and consistent patterns. High-quality granite should have a polished surface that reflects light evenly."
  const ConstructionAnswer := "Best stones for construction include: Granite (durability), Limestone (workability), Sandstone (weather resistance), Marble (aesthetics), and Slate (roofing). Choice depends on climate, load requirements, and aesthetic preferences."
  const RestorationAnswer := "Stone restoration techniques include: cleaning with appropriate methods, repointing mortar joints, crack repair with compatible materials, surface consolidation, and protective treatments. Always match original materials."
  const DefaultAnswer := "That's an interesting question about stone materials. Stone properties vary greatly depending on geological formation, mineral composition, and intended use. Could you be more specific about what aspect interests you most?"

  /** `Object.keys(responses)` in declaration order; "default" is a key like the others. */
  const Keys: seq<string> := ["carrara", "granite", "construction", "restoration", "default"]

  /** The answer stored under each key, index for index. */
  const Answers: seq<string> := [CarraraAnswer, GraniteAnswer, ConstructionAnswer, RestorationAnswer, DefaultAnswer]

  // ---------------------------------------------------------------------------
  // simulateResponse
  // ---------------------------------------------------------------------------

  /** `keys.find(k => text.includes(k))`, as the index of the first key found in `text`,
      searching from `from`. */
  function FindKey(keys: seq<string>, text: string, from: nat): (r: Option<nat>)
    requires from <= |keys|
    ensures r.Some? ==> from <= r.value < |keys| && Contains(text, keys[r.value])
    ensures r.Some? ==> forall j :: from <= j < r.value ==> !Contains(text, keys[j])
    ensures r.None? ==> forall j :: from <= j < |keys| ==> !Contains(text, keys[j])
    decreases |keys| - from
  {
    if from == |keys| then None
    else if Contains(text, keys[from]) then Some(from)
    else FindKey(keys, text, from + 1)
  }

  /** `simulateResponse`: the answer of the first key found in the lowered question, or
      the default answer when none is found. */
  function SimulateResponse(question: string): string
  {
    match FindKey(Keys, Lower(question), 0)
    case Some(i) => Answers[i]
    case None => DefaultAnswer
  }

  /** The answer is that of the first key, in table order, that occurs in the lowered
      question. */
  lemma SimulateResponseSpec(question: string, i: nat)
    requires i < |Keys| && Contains(Lower(question), Keys[i])
    requires forall j :: 0 <= j < i ==> !Contains(Lower(question), Keys[j])
    ensures SimulateResponse(question) == Answers[i]
  {
  }

  /** A question with no key gets the default answer, so every question is answered
      from the table. */
  lemma NoKeyGetsDefault(question: string)
    requires forall j :: 0 <= j < |Keys| ==> !Contains(Lower(question), Keys[j])
    ensures SimulateResponse(question) == DefaultAnswer
  {
  }

  /** A question that mentions Carrara gets the Carrara answer, whatever else it
      mentions: "carrara" is the first key. */
  lemma CarraraWins(question: string)
    requires Contains(Lower(question), "carrara")
    ensures SimulateResponse(question) == CarraraAnswer
  {
    SimulateResponseSpec(question, 0);
  }

  lemma LowerCarrara()
    ensures Lower("Carrara") == "carrara"
  {
    var b := "Carrara";
    assert LowerChar('C') == 'c';
    assert forall i :: 1 <= i < 7 ==> !IsAsciiUpper(b[i]);
    assert forall i :: 0 <= i < 7 ==> Lower(b)[i] == "carrara"[i];
  }

  /** The first of the quick-question buttons. */
  const QuickCarrara := "What is " + "Carrara" + " marble?"

  /** The first quick question gets the Carrara answer. */
  lemma QuickQuestionCarrara()
    ensures SimulateResponse(QuickCarrara) == CarraraAnswer
  {
    var q := QuickCarrara;
    var a, b, c := "What is ", "Carrara", " marble?";
    var low := Lower(q);
    assert low == Lower(a) + "carrara" + Lower(c) by {
      LowerAppend(a + b, c);
      LowerAppend(a, b);
      LowerCarrara();
    }
    assert Contains(low, "carrara") by {
      assert |Lower(a)| == 8;
      assert low[8..15] == "carrara";
      assert OccursAt(low, "carrara", 8);
      ContainsIff(low, "carrara");
    }
    CarraraWins(q);
  }

  /** The question's case never matters. */
  lemma ResponseIgnoresCase(question: string)
    ensures SimulateResponse(Lower(question)) == SimulateResponse(question)
  {
    LowerIdempotent(question);
  }

  // ---------------------------------------------------------------------------
  // handleSend
  // ---------------------------------------------------------------------------

  /** `message || inputValue.trim()`: a non-empty argument is sent as given, untrimmed;
      otherwise the trimmed input. */
  function MessageToSend(message: Option<string>, input: string): (r: string)
    ensures message.Some? && message.value != "" ==> r == message.value
    ensures (message.None? || message.value == "") ==> r == Trim(input)
    ensures r == "" <==> (message.None? || message.value == "") && IsBlank(input)
  {
    if message.Some? && message.value != "" then message.value else Trim(input)
  }

  /** The chat page's state. */
  class AiChatPage {
    var messages: seq<Message>
    var inputValue: string
    var isLoading: bool

    constructor ()
      ensures messages == [Message("1", Greeting, false)] && inputValue == "" && !isLoading
    {
      messages := [Message("1", Greeting, false)];
      inputValue := "";
      isLoading := false;
    }

    /** The input's `onChange`. */
    method SetInput(value: string)
      modifies this
      ensures inputValue == value && messages == old(messages) && isLoading == old(isLoading)
    {
      inputValue := value;
    }

    /** `handleSend(message)`, given the fresh id the clock would provide. Nothing to
      send changes nothing; otherwise one user message is appended at the end, the input
      is cleared and the page waits for the reply. */
    method HandleSend(message: Option<string>, freshId: string) returns (sent: Option<string>)
      modifies this
      ensures sent.None? <==> MessageToSend(message, old(inputValue)) == ""
      ensures sent.None? ==>
        messages == old(messages) && inputValue == old(inputValue) && isLoading == old(isLoading)
      ensures sent.Some? ==>
        sent.value == MessageToSend(message, old(inputValue))
        && messages == old(messages) + [Message(freshId, sent.value, true)]
        && inputValue == "" && isLoading
    {
      var toSend := MessageToSend(message, inputValue);
      if toSend == "" {
        return None;
      }
      messages := messages + [Message(freshId, toSend, true)];
      inputValue := "";
      isLoading := true;
      sent := Some(toSend);
    }

    /** The delayed reply, run by the caller when the timer fires: the answer to the
      sent question is appended and the page stops waiting. */
    method ReceiveReply(question: string, freshId: string)
      modifies this
      ensures messages == old(messages) + [Message(freshId, SimulateResponse(question), false)]
      ensures !isLoading && inputValue == old(inputValue)
    {
      messages := messages + [Message(freshId, SimulateResponse(question), false)];
      isLoading := false;
    }
  }
}
