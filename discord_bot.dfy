/**
  The chat bot: a user message starting with `!`, or a 🔁 / 🖼️ reaction by a
  non-bot member, starts a generation. The bot posts a placeholder, asks the
  server for an image, and queues the edit of the placeholder, and, when image
  bytes came back, the attachment and the 🔁 reaction that makes it replayable.
*/
module DiscordBot {
  import opened Wrappers
  import opened PyText
  import opened FileNames

  const ElaborateInstruction: string := "Elaborate each query into a more verbose prompt for image generation. Do not output any other text or commentary. Target length: 50 words"

  /** 🔁 */
  const Regenerate: string := "\U{1F501}"
  /** 🖼️ (the picture frame followed by the emoji presentation selector) */
  const MakeArt: string := "\U{1F5BC}\U{FE0F}"

  datatype Message = Message(authorIsBot: bool, content: string)

  datatype ReactionEvent = ReactionEvent(emoji: string, memberIsBot: bool)

  /** `on_message`: the text handed on for generation. Bots are ignored; a user
      message counts exactly when it starts with `!`, which is cut off. */
  function OnMessage(m: Message): (r: Option<string>)
    ensures m.authorIsBot ==> r.None?
    ensures !m.authorIsBot ==> (r.Some? <==> StartsWith(m.content, "!"))
    ensures r.Some? ==> m.content == "!" + r.value
  {
    if m.authorIsBot then None
    else if StartsWith(m.content, "!") then Some(m.content[1..])
    else None
  }

  predicate ReactionTriggers(e: ReactionEvent) {
    (e.emoji == Regenerate || e.emoji == MakeArt) && !e.memberIsBot
  }

  /** `on_raw_reaction_add`: a trigger reaction replays the reacted-to message's
      text with at most one leading `!` removed. */
  function OnReaction(e: ReactionEvent, content: string): (r: Option<string>)
    ensures r.Some? <==> ReactionTriggers(e)
    ensures r.Some? && StartsWith(content, "!") ==> content == "!" + r.value
    ensures r.Some? && !StartsWith(content, "!") ==> r.value == content
  {
    if ReactionTriggers(e) then Some(RemovePrefix(content, "!")) else None
  }

  /** Replaying a user's trigger message gives exactly the text the message itself gave. */
  lemma ReplayMatchesTrigger(m: Message, e: ReactionEvent)
    requires OnMessage(m).Some? && ReactionTriggers(e)
    ensures OnReaction(e, m.content) == OnMessage(m)
  {
    assert m.content[..1] == "!";
  }

  /** What `agenerate` gets back from the HTTP post. */
  datatype PostOutcome = Responded(status: int, body: Bytes) | Raised(error: string)

  /** `agenerate`: the prompt and the response body, whatever the status; on an
      exception, its text and no image. */
  function AGenerate(prompt: string, outcome: PostOutcome): (r: (string, Option<Bytes>))
    ensures outcome.Responded? ==> r.0 == prompt && r.1 == Some(outcome.body)
    ensures outcome.Raised? ==> r.1.None? && r.0 == "Exception: " + outcome.error
  {
    match outcome
    case Responded(_, body) => (prompt, Some(body))
    case Raised(e) => ("Exception: " + e, None)
  }

  /** The form the bot posts. */
  function BotForm(prompt: string): (fields: map<string, string>)
    ensures fields.Keys == {"prompt", "negative_prompt", "elaborate_instruction"}
    ensures fields["prompt"] == prompt && fields["negative_prompt"] == ""
    ensures fields["elaborate_instruction"] == ElaborateInstruction && ElaborateInstruction != ""
  {
    map["prompt" := prompt, "negative_prompt" := "", "elaborate_instruction" := ElaborateInstruction]
  }

  /** The chat operations `generate_common` queues. */
  datatype Action =
    | Edit(content: string)
    | AddFiles(fileName: string, description: string, data: Bytes)
    | AddReaction(emoji: string)

  /** `generate_common`: strips the prompt, posts the placeholder, asks for the
      image, and queues the edit, then the file and the 🔁 reaction when non-empty
      image bytes came back. `post` is the HTTP exchange. */
  method GenerateCommon(raw: string, post: string -> PostOutcome, sha256: Bytes -> HexDigest)
    returns (placeholder: string, toAwait: seq<Action>)
    ensures placeholder == "*thinking about " + Strip(raw) + "*"
    ensures |toAwait| == 1 || |toAwait| == 3
    ensures toAwait[0] == Edit(AGenerate(Strip(raw), post(Strip(raw))).0)
    ensures post(Strip(raw)).Responded? ==> toAwait[0] == Edit(Strip(raw))
    ensures |toAwait| == 3 <==> post(Strip(raw)).Responded? && |post(Strip(raw)).body| > 0
    ensures |toAwait| == 3 ==>
      var data := post(Strip(raw)).body;
      toAwait[1] == AddFiles(FileName(Strip(raw), sha256(data)), Strip(raw), data)
      && toAwait[2] == AddReaction(Regenerate)
  {
    var prompt := Strip(raw);
    placeholder := "*thinking about " + prompt + "*";
    var (textContent, imageContent) := AGenerate(prompt, post(prompt));
    toAwait := [Edit(textContent)];
    if imageContent.Some? && |imageContent.value| > 0 {
      var fileName := FileName(prompt, sha256(imageContent.value));
      toAwait := toAwait + [AddFiles(fileName, prompt, imageContent.value), AddReaction(Regenerate)];
    }
  }

  /** After a successful generation the bot's message reads the stripped prompt.
      Reacting to it replays that prompt exactly when the prompt does not itself
      start with `!`: one leading `!` is removed again. */
  lemma ReplayOfReply(raw: string, e: ReactionEvent, status: int, body: Bytes)
    requires ReactionTriggers(e)
    ensures var reply := AGenerate(Strip(raw), Responded(status, body)).0;
      Strip(OnReaction(e, reply).value) == Strip(raw) <==> !StartsWith(Strip(raw), "!")
  {
    var p := Strip(raw);
    var reply := AGenerate(p, Responded(status, body)).0;
    assert reply == p;
    var replay := OnReaction(e, p).value;
    if StartsWith(p, "!") {
      assert p == "!" + replay;
      ShorterStripDiffers(replay, p);
    } else {
      assert replay == p;
      StripIdempotent(raw);
    }
  }

  /** Stripping a string shorter than `p` cannot give `p`. */
  lemma ShorterStripDiffers(s: string, p: string)
    requires |s| < |p|
    ensures Strip(s) != p
  {
    StripShortens(s);
  }
}
