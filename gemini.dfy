/** The AI partner: the system instruction built from the scenario, and the send loop
    that retries on rate limits and server errors with a doubling wait. */
module Gemini {
  import opened Types
  import Text

  const MaxRetries := 3
  const ModelName := "gemini-2.5-flash"
  const TemperatureTenths := 9
  const MaxOutputTokens := 250

  const NotInitialized := "Chat session not initialized"
  const AttachmentOnly := "[Uživatel poslal přílohu bez textu]"
  const EmptyReply := "..."
  const RateLimitReply := "Teď toho na mě bylo moc (hodně studentů píše najednou). Zkus mi to poslat znovu za chvilku."
  const ConnectionReply := "Omlouvám se, mám problém s připojením. Zkus to prosím znovu."
  const ServerUnreachable := "Omlouvám se, nepodařilo se spojit se serverem."

  // The fixed parts of the system instruction, between the scenario's fields.
  const Instruction0 := "\n    Hraješ roli v simulaci chatu pro školní aktivitu.\n    \n    Tvoje identita:\n    Jméno: \""
  const Instruction1 := "\"\n    Role: \""
  const Instruction2 := "\"\n    \n    Identita tvého partnera (uživatele):\n    Jméno: \""
  const Instruction3 := "\"\n    Role: \""
  const Instruction4 := "\"\n    \n    Téma konverzace/Zadání aktivity: \""
  const Instruction5 := "\".\n    \n    Instrukce:\n    1. Chovej se naprosto přirozeně jako člověk v chatovací aplikaci (Messenger/WhatsApp).\n    2. PLNĚ PŘIJMI SVOU ROLI (\""
  const Instruction6 := "\"). Pokud je tvá role konfliktní, buď v konfliktu. Pokud je kooperativní, spolupracuj.\n    3. Respektuj roli partnera (\""
  const Instruction7 := "\").\n    4. Používej hovorový jazyk (češtinu), emoji, občasné zkratky, pokud se to hodí k tvé roli a tématu.\n    5. Nikdy nevystupuj z role. Nikdy neříkej, že jsi AI.\n    6. Odpovídej stručně. Zprávy v chatu bývají krátké (1-3 věty).\n    7. Posouvej konverzaci dál.\n    8. Pokud uživatel pošle obrázek nebo hlasovou zprávu (uvidíš to jako text v závorce), reaguj na to přirozeně, jako bys to viděl/slyšel.\n  "

  /** The template's pieces: its fixed text interleaved with the scenario's fields. */
  function InstructionPieces(s: ChatSettings): (p: seq<string>)
    ensures |p| == 15
    ensures p[1] == s.partner.name && p[3] == s.partner.role && p[5] == s.user.name
    ensures p[7] == s.user.role && p[9] == s.topic && p[11] == s.partner.role && p[13] == s.user.role
  {
    [Instruction0, s.partner.name, Instruction1, s.partner.role, Instruction2, s.user.name,
     Instruction3, s.user.role, Instruction4, s.topic, Instruction5, s.partner.role,
     Instruction6, s.user.role, Instruction7]
  }

  /** `getSystemInstruction`: the AI plays the partner, addresses the user, and keeps to
      the topic. */
  function SystemInstruction(s: ChatSettings): string {
    Text.Concat(InstructionPieces(s))
  }

  /** The instruction names the partner's name and role, the user's name and role, and
      the topic. */
  lemma SystemInstructionMentions(s: ChatSettings)
    ensures var r := SystemInstruction(s);
      && Text.Includes(r, s.partner.name) && Text.Includes(r, s.partner.role)
      && Text.Includes(r, s.user.name) && Text.Includes(r, s.user.role)
      && Text.Includes(r, s.topic)
  {
    var p := InstructionPieces(s);
    Text.IncludesPiece(p, 1);
    Text.IncludesPiece(p, 3);
    Text.IncludesPiece(p, 5);
    Text.IncludesPiece(p, 7);
    Text.IncludesPiece(p, 9);
  }

  /** What the client library raised: an HTTP status and a message, either possibly absent. */
  datatype Failure = Failure(status: Option<int>, message: Option<string>)

  /** The answer after the loop, which no run reaches: every call either returns or
      retries while a further call is allowed. */
  const Fallback := Answer(ServerUnreachable, MaxRetries + 1, [])

  /** The result of one `sendMessage` call. */
  datatype Outcome = Replied(text: string) | Threw(failure: Failure)

  predicate IsRateLimit(f: Failure) {
    f.status == Some(429) || (f.message.Some? && Text.Includes(f.message.value, "429"))
  }

  predicate IsServerError(f: Failure) {
    f.status == Some(503)
  }

  predicate Retriable(f: Failure) {
    IsRateLimit(f) || IsServerError(f)
  }

  function Pow2(k: nat): nat {
    if k == 0 then 1 else 2 * Pow2(k - 1)
  }

  /** The base wait before retry number k (the random jitter left out). */
  function BaseWait(k: nat): nat
    requires k >= 1
  {
    1000 * Pow2(k - 1)
  }

  /** What a send amounts to: the text returned, the number of model calls, and the
      waits slept between them. */
  datatype Answer = Answer(text: string, calls: nat, waits: seq<nat>)

  /** The send starting from call number k (0-based), where `outcomes[j]` is what call j
      would return. */
  function Exchange(outcomes: seq<Outcome>, k: nat): Answer
    requires k <= MaxRetries && |outcomes| == MaxRetries + 1
    decreases MaxRetries - k
  {
    match outcomes[k]
    case Replied(t) => Answer(if t == "" then EmptyReply else t, k + 1, [])
    case Threw(f) =>
      if Retriable(f) && k < MaxRetries then After(BaseWait(k + 1), Exchange(outcomes, k + 1))
      else Answer(if IsRateLimit(f) then RateLimitReply else ConnectionReply, k + 1, [])
  }

  /** The answer of a later call, with `waits` slept before it. */
  function Delayed(waits: seq<nat>, a: Answer): Answer {
    Answer(a.text, a.calls, waits + a.waits)
  }

  function After(wait: nat, a: Answer): Answer {
    Delayed([wait], a)
  }

  /** From call k on: more calls than k and at most four in all, a wait of `BaseWait` before
      each retry, a retry only after a retriable failure, and the text decided by the last
      call: its reply (or `...` when empty), or after a failure that is not retried the
      rate-limit or the connection message. */
  lemma {:induction false} ExchangeSpec(outcomes: seq<Outcome>, k: nat)
    requires k <= MaxRetries && |outcomes| == MaxRetries + 1
    ensures var a := Exchange(outcomes, k);
      && k < a.calls <= MaxRetries + 1
      && |a.waits| == a.calls - 1 - k
      && (forall j :: 0 <= j < |a.waits| ==> a.waits[j] == BaseWait(k + j + 1))
      && (forall j :: k <= j < a.calls - 1 ==> outcomes[j].Threw? && Retriable(outcomes[j].failure))
    ensures var a := Exchange(outcomes, k);
      var last := outcomes[a.calls - 1];
      && (last.Replied? ==> a.text == if last.text == "" then EmptyReply else last.text)
      && (last.Threw? ==> (a.calls == MaxRetries + 1 || !Retriable(last.failure))
                          && a.text == if IsRateLimit(last.failure) then RateLimitReply else ConnectionReply)
    decreases MaxRetries - k
  {
    match outcomes[k]
    case Replied(_) =>
    case Threw(f) =>
      if Retriable(f) && k < MaxRetries {
        ExchangeSpec(outcomes, k + 1);
        var rest := Exchange(outcomes, k + 1);
        var a := Exchange(outcomes, k);
        assert a == Answer(rest.text, rest.calls, [BaseWait(k + 1)] + rest.waits);
        forall j | 0 <= j < |a.waits|
          ensures a.waits[j] == BaseWait(k + j + 1)
        {
          if j > 0 {
            assert a.waits[j] == rest.waits[j - 1];
          }
        }
      }
  }

  /** A whole send: at most four calls, a wait of 1000, 2000, then 4000 ms before each
      retry, and retries only after a rate limit or a server error. */
  lemma ExchangeBounds(outcomes: seq<Outcome>)
    requires |outcomes| == MaxRetries + 1
    ensures var a := Exchange(outcomes, 0);
      && 1 <= a.calls <= 4
      && a.waits == [1000, 2000, 4000][..a.calls - 1]
  {
    ExchangeSpec(outcomes, 0);
    var a := Exchange(outcomes, 0);
    assert Pow2(0) == 1 && Pow2(1) == 2 && Pow2(2) == 4;
    assert BaseWait(1) == 1000 && BaseWait(2) == 2000 && BaseWait(3) == 4000;
    assert forall j :: 0 <= j < |a.waits| ==> a.waits[j] == [1000, 2000, 4000][j];
  }

  /** The text actually sent: a blank message stands for an attachment without text. */
  function EffectiveMessage(message: string): (m: string)
    ensures Text.IsBlank(message) ==> m == AttachmentOnly
    ensures !Text.IsBlank(message) ==> m == message
  {
    if Text.IsBlank(message) then AttachmentOnly else message
  }

  /** The chat the client library creates. */
  datatype ChatConfig = ChatConfig(model: string, systemInstruction: string, temperatureTenths: nat, maxOutputTokens: nat)

  /** What `sendMessageToAI` does: throw because no chat exists, or send `message` up to
      four times and answer. */
  datatype Sending = NotReady(error: string) | Sent(message: string, answer: Answer)

  /** The module-level chat session. */
  class ChatClient {
    var chatSession: Option<ChatConfig>

    constructor ()
      ensures chatSession.None?
    {
      chatSession := None;
    }

    /** `initializeChat`: a new chat for the scenario replaces any previous one. */
    method InitializeChat(settings: ChatSettings)
      modifies this
      ensures chatSession == Some(ChatConfig(ModelName, SystemInstruction(settings), TemperatureTenths, MaxOutputTokens))
    {
      chatSession := Some(ChatConfig(ModelName, SystemInstruction(settings), TemperatureTenths, MaxOutputTokens));
    }

    /** `sendMessageToAI`, with `outcomes[j]` the result call j would get. */
    method SendMessageToAI(message: string, outcomes: seq<Outcome>) returns (r: Sending)
      requires |outcomes| == MaxRetries + 1
      ensures chatSession.None? ==> r == NotReady(NotInitialized)
      ensures chatSession.Some? ==> r == Sent(EffectiveMessage(message), Exchange(outcomes, 0))
    {
      if chatSession.None? {
        return NotReady(NotInitialized);
      }
      var effective := EffectiveMessage(message);
      var attempt := 0;
      var waits: seq<nat> := [];
      ghost var total := Exchange(outcomes, 0);
      while attempt <= MaxRetries
        invariant 0 <= attempt <= MaxRetries
        invariant total == Delayed(waits, Exchange(outcomes, attempt))
        decreases MaxRetries - attempt
      {
        match outcomes[attempt]
        case Replied(t) =>
          return Sent(effective, Answer(if t == "" then EmptyReply else t, attempt + 1, waits));
        case Threw(f) =>
          var isRateLimit := IsRateLimit(f);
          var isServerError := IsServerError(f);
          if (isRateLimit || isServerError) && attempt < MaxRetries {
            ghost var rest := Exchange(outcomes, attempt + 1);
            assert Delayed(waits, After(BaseWait(attempt + 1), rest))
                == Delayed(waits + [BaseWait(attempt + 1)], rest);
            attempt := attempt + 1;
            waits := waits + [BaseWait(attempt)];
          } else {
            var text := if isRateLimit then RateLimitReply else ConnectionReply;
            return Sent(effective, Answer(text, attempt + 1, waits));
          }
      }
      assert false;
      r := Sent(effective, Fallback);
    }
  }
}
