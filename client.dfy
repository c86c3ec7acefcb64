/**
  The command-line client: it joins the positional words into a prompt, parses
  `--size WxH`, posts the form, turns a non-200 response into a failure exit,
  and for a 200 response names the file after the prompt and the image hash and
  lists the image's text metadata as table rows.
*/
module Client {
  import opened Wrappers
  import opened PyText
  import opened FileNames

  const DefaultSize: string := "1024x1024"
  const DefaultSteps: int := 50
  const DefaultInstruction: string := "Elaborate each query into a more verbose prompt for image generation. Do not output any other text or commentary. Target length: 50 words"

  // ------------------------------------------------------------ the prompt

  /** The positional words joined by single spaces; with no words, the line
      typed at the `Image description: ` prompt. */
  function ChoosePrompt(words: seq<string>, typed: string): (prompt: string)
    ensures |words| == 0 ==> prompt == typed
    ensures |words| == 1 ==> prompt == words[0]
  {
    if |words| > 0 then Join(words, " ") else typed
  }

  /** Words without spaces split back out of the prompt they were joined into. */
  lemma ChoosePromptSplit(words: seq<string>, typed: string)
    requires |words| > 0 && forall k :: 0 <= k < |words| ==> ' ' !in words[k]
    ensures Split(ChoosePrompt(words, typed), ' ') == words
  {
    SplitJoin(words, ' ');
  }

  /** Joining words adds exactly one space between neighbours. */
  lemma {:induction false} JoinLength(words: seq<string>)
    requires |words| > 0
    ensures |Join(words, " ")| == Sum(words) + |words| - 1
  {
    if |words| > 1 {
      JoinLength(words[1..]);
    }
  }

  function Sum(words: seq<string>): nat {
    if words == [] then 0 else |words[0]| + Sum(words[1..])
  }

  // ------------------------------------------------------------ --size

  datatype SizeError = NotAnInteger(part: string) | WrongPartCount(count: nat)

  /** `width, height = map(int, size.split("x"))`. The map is lazy, so the parts
      are converted one by one while they are unpacked: a bad first or second
      part is reported before a missing or a surplus one, and a third part is
      converted before the surplus is noticed. */
  function ParseSize(size: string): (r: Result<(int, int), SizeError>)
    ensures var parts := Split(size, 'x');
      r.Ok? <==> |parts| == 2 && ParseInt(parts[0]).Some? && ParseInt(parts[1]).Some?
    ensures var parts := Split(size, 'x');
      r.Ok? ==> r.value == (ParseInt(parts[0]).value, ParseInt(parts[1]).value)
    ensures r.Err? && r.error.WrongPartCount? ==> r.error.count != 2
  {
    var parts := Split(size, 'x');
    match ParseInt(parts[0])
    case None => Err(NotAnInteger(parts[0]))
    case Some(w) =>
      if |parts| == 1 then Err(WrongPartCount(1))
      else
        match ParseInt(parts[1])
        case None => Err(NotAnInteger(parts[1]))
        case Some(h) =>
          if |parts| == 2 then Ok((w, h))
          else if ParseInt(parts[2]).None? then Err(NotAnInteger(parts[2]))
          else Err(WrongPartCount(|parts|))
  }

  /** A size whose width is padded in front with an information separator is
      refused, as `int()` refuses it, although `strip()` would have removed it. */
  lemma SeparatorPaddedSizeRejected(c: char, size: string)
    requires '\U{1C}' <= c <= '\U{1F}'
    ensures ParseSize([c] + size) == Err(NotAnInteger([c] + Split(size, 'x')[0]))
  {
    assert ([c] + size)[1..] == size;
    SeparatorPaddingRejected(c, Split(size, 'x')[0]);
  }

  /** A width of more than `MaxStrDigits` digits is refused, as `int()` refuses it. */
  lemma OverlongWidthRejected(digits: string, rest: string)
    requires |digits| > MaxStrDigits && forall i :: 0 <= i < |digits| ==> IsDigit(digits[i])
    ensures ParseSize(digits + "x" + rest) == Err(NotAnInteger(digits))
  {
    assert 'x' !in digits by {
      forall i | 0 <= i < |digits| ensures digits[i] != 'x' {
        assert IsDigit(digits[i]);
      }
    }
    SplitWordThenSep(digits, 'x', rest);
    ParseDigits(digits);
  }

  lemma IntToStringHasNoX(i: int)
    ensures 'x' !in IntToString(i)
  {
    var s := IntToString(i);
    var digits := NatToString(if i < 0 then -i else i);
    forall k | 0 <= k < |s| ensures s[k] != 'x' {
      if i < 0 && k > 0 {
        assert s[k] == digits[k - 1];
      } else if i >= 0 {
        assert s[k] == digits[k];
      }
    }
  }

  /** Whatever two integers are written as `WxH`, the size parses back to them. */
  lemma ParseFormattedSize(w: int, h: int)
    requires WithinStrLimit(w) && WithinStrLimit(h)
    ensures ParseSize(IntToString(w) + "x" + IntToString(h)) == Ok((w, h))
  {
    var a, b := IntToString(w), IntToString(h);
    IntToStringHasNoX(w);
    IntToStringHasNoX(h);
    assert Join([a, b], "x") == a + "x" + b;
    SplitJoin([a, b], 'x');
    ParseIntToString(w);
    ParseIntToString(h);
  }

  /** The default `1024x1024` gives a 1024 by 1024 request. */
  lemma DefaultSizeParses()
    ensures ParseSize(DefaultSize) == Ok((1024, 1024))
  {
    assert NatToString(1) == "1";
    assert NatToString(10) == "10";
    assert NatToString(102) == "102";
    assert NatToString(1024) == "1024";
    assert DefaultSize == IntToString(1024) + "x" + IntToString(1024);
    ParseFormattedSize(1024, 1024);
  }

  // ------------------------------------------------------------ the request

  /** The form the client posts (lines 82-89). */
  datatype Form = Form(prompt: string, negativePrompt: string, instruction: string,
                       width: int, height: int, steps: int)

  /** The form as the server receives it: every value is text, the integers
      written with `str`. */
  function FormFields(form: Form): (fields: map<string, string>)
    ensures fields.Keys == {"prompt", "negative_prompt", "elaborate_instruction", "width", "height", "num_inference_steps"}
    ensures fields["prompt"] == form.prompt && fields["negative_prompt"] == form.negativePrompt
    ensures fields["elaborate_instruction"] == form.instruction
  {
    var width, height, steps := IntToString(form.width), IntToString(form.height), IntToString(form.steps);
    map["prompt" := form.prompt, "negative_prompt" := form.negativePrompt,
        "elaborate_instruction" := form.instruction, "width" := width,
        "height" := height, "num_inference_steps" := steps]
  }

  /** Whether `str()` accepts the form's integers; for a larger one the client
      raises `ValueError` before posting. */
  predicate Encodable(form: Form) {
    WithinStrLimit(form.width) && WithinStrLimit(form.height) && WithinStrLimit(form.steps)
  }

  /** The server reads the client's integers back as the values the client sent. */
  lemma FormFieldsDecode(form: Form)
    requires Encodable(form)
    ensures var fields := FormFields(form);
      && ParseInt(fields["width"]) == Some(form.width) && ParseInt(fields["height"]) == Some(form.height)
      && ParseInt(fields["num_inference_steps"]) == Some(form.steps)
  {
    var fields := FormFields(form);
    IntFieldDecodes(fields, "width", form.width);
    IntFieldDecodes(fields, "height", form.height);
    IntFieldDecodes(fields, "num_inference_steps", form.steps);
  }

  lemma IntFieldDecodes(fields: map<string, string>, key: string, v: int)
    requires key in fields && fields[key] == IntToString(v) && WithinStrLimit(v)
    ensures ParseInt(fields[key]) == Some(v)
  {
    ParseIntToString(v);
  }

  // ------------------------------------------------------------ the response

  /** A decoded JSON document. */
  datatype Json =
    | JNull
    | JBool(b: bool)
    | JNumber(n: real)
    | JString(s: string)
    | JArray(items: seq<Json>)
    | JObject(fields: map<string, Json>)

  /** What the client reads of the server's answer: the status, the body as
      text, the body as JSON (`None` when decoding raises), and the body bytes. */
  datatype Response = Response(status: int, text: string, json: Option<Json>, content: Bytes)

  /** What the failure exit reports: `j['error']['message']`, or the raw body text. */
  datatype Detail = ErrorMessage(message: Json) | ResponseText(text: string)

  /** Exceptions the client does not catch. */
  datatype Crash =
    | NotSubscriptable  // `j['error']` or `j['error']['message']` on something other than an object
    | UnreadableImage   // the image library cannot read the body

  datatype Outcome =
    | BadSize(error: SizeError)
    | Failed(detail: Detail, status: int)
    | Crashed(crash: Crash)
    | Saved(fileName: string, rows: seq<(string, string)>, viewer: Option<seq<string>>)

  predicate HasErrorObject(json: Json) {
    json.JObject? && "error" in json.fields && json.fields["error"].JObject?
  }

  /** The exit chosen for a non-200 response (lines 94-100): the message under
      `error.message` when it is there; the raw text when the body is not JSON or a
      key is missing (`KeyError`); an uncaught `TypeError` when a non-object is
      subscripted. */
  function FailureOutcome(status: int, text: string, json: Option<Json>): (r: Outcome)
    ensures r.Failed? || r.Crashed?
    ensures r.Failed? ==> r.status == status
    ensures (r.Failed? && r.detail.ErrorMessage?)
        <==> (json.Some? && HasErrorObject(json.value) && "message" in json.value.fields["error"].fields)
    ensures r.Failed? && r.detail.ErrorMessage? ==> r.detail.message == json.value.fields["error"].fields["message"]
    ensures (r.Failed? && r.detail.ResponseText?)
        <==> (json.None? || (json.value.JObject? && "error" !in json.value.fields)
              || (HasErrorObject(json.value) && "message" !in json.value.fields["error"].fields))
    ensures r.Failed? && r.detail.ResponseText? ==> r.detail.text == text
  {
    match json
    case None => Failed(ResponseText(text), status)
    case Some(JObject(fields)) =>
      if "error" !in fields then Failed(ResponseText(text), status)
      else
        (match fields["error"]
         case JObject(inner) =>
           if "message" in inner then Failed(ErrorMessage(inner["message"]), status)
           else Failed(ResponseText(text), status)
         case _ => Crashed(NotSubscriptable))
    case Some(_) => Crashed(NotSubscriptable)
  }

  /** `f"Failure {message} ({status})"`, when the message is text. */
  function FailureText(detail: Detail, status: int): Option<string> {
    match detail
    case ResponseText(t) => Some("Failure " + t + " (" + IntToString(status) + ")")
    case ErrorMessage(JString(m)) => Some("Failure " + m + " (" + IntToString(status) + ")")
    case ErrorMessage(_) => None
  }

  /** The failure line carries the message and, in the final parentheses, the status
      code, which reads back as the same number. */
  lemma FailureTextMentions(message: string, status: int)
    requires WithinStrLimit(status)
    ensures var line := FailureText(ResponseText(message), status);
      line == FailureText(ErrorMessage(JString(message)), status)
      && line.Some?
      && line.value[8..8 + |message|] == message
      && var code := line.value[|line.value| - 1 - |IntToString(status)|..|line.value| - 1];
         ParseInt(code) == Some(status)
  {
    var code := IntToString(status);
    var line := "Failure " + message + " (" + code + ")";
    assert FailureText(ResponseText(message), status) == Some(line);
    FivePieces("Failure ", message, " (", code, ")");
    assert line[|line| - 1 - |code|..|line| - 1] == code;
    ParseIntToString(status);
  }

  /** Where the second and the fourth of five concatenated pieces sit. */
  lemma FivePieces<T>(a: seq<T>, b: seq<T>, c: seq<T>, d: seq<T>, e: seq<T>)
    ensures var l := a + b + c + d + e;
      && l[|a|..|a| + |b|] == b
      && l[|l| - |e| - |d|..|l| - |e|] == d
  {
  }

  // ------------------------------------------------------------ the metadata table

  /** The two-column table of the image's text metadata. */
  class Table {
    var rows: seq<(string, string)>

    constructor ()
      ensures rows == []
    {
      rows := [];
    }

    method AddRow(k: string, v: string)
      modifies this
      ensures rows == old(rows) + [(k, v)]
    {
      rows := rows + [(k, v)];
    }
  }

  // ------------------------------------------------------------ main

  /** The 200 branch (lines 102-121): the file name from the prompt and the
      image digest, one table row per metadata entry in the order read, and the
      viewer command when an action is configured. */
  method SaveImage(prompt: string, data: Bytes, action: string, sha256: Bytes -> HexDigest,
                   readInfo: Bytes -> Option<seq<(string, string)>>)
    returns (out: Outcome)
    ensures readInfo(data).None? ==> out == Crashed(UnreadableImage)
    ensures readInfo(data).Some? ==> out.Saved? && out.rows == readInfo(data).value
    ensures out.Saved? ==> out.fileName == FileName(prompt, sha256(data))
    ensures out.Saved? ==> out.viewer == if action == "" then None else Some([action, out.fileName])
  {
    var fileName := FileName(prompt, sha256(data));
    var info := readInfo(data);
    if info.None? {
      return Crashed(UnreadableImage);
    }
    var table := FillTable(info.value);
    var viewer := if action == "" then None else Some([action, fileName]);
    out := Saved(fileName, table.rows, viewer);
  }

  /** The `for k, v in image.info.items(): table.add_row(k, v)` loop: one row
      per entry, in order. */
  method FillTable(entries: seq<(string, string)>) returns (table: Table)
    ensures fresh(table) && table.rows == entries
  {
    table := new Table();
    for i := 0 to |entries|
      invariant table.rows == entries[..i]
    {
      table.AddRow(entries[i].0, entries[i].1);
      assert entries[..i + 1] == entries[..i] + [entries[i]];
    }
    assert entries[..|entries|] == entries;
  }

  /** With every option left at its default, the client posts a 1024x1024,
      50-step request with an empty negative prompt that asks the server to
      elaborate the prompt. */
  lemma DefaultRequest(words: seq<string>, typed: string)
    ensures ParseSize(DefaultSize).Ok?
    ensures var form := RequestOf(words, typed, DefaultSize, DefaultSteps, "", DefaultInstruction);
      && form.width == 1024 && form.height == 1024 && form.steps == 50
      && FormFields(form)["negative_prompt"] == ""
      && FormFields(form)["elaborate_instruction"] == DefaultInstruction != ""
  {
    DefaultSizeParses();
  }

  /** The request a run posts once its size has parsed. */
  function RequestOf(words: seq<string>, typed: string, size: string, steps: int,
                     negativePrompt: string, instruction: string): (form: Form)
    requires ParseSize(size).Ok?
    ensures (form.width, form.height) == ParseSize(size).value
    ensures form.steps == steps && form.negativePrompt == negativePrompt && form.instruction == instruction
    ensures |words| > 0 ==> form.prompt == Join(words, " ")
  {
    Form(ChoosePrompt(words, typed), negativePrompt, instruction,
         ParseSize(size).value.0, ParseSize(size).value.1, steps)
  }

  /** The sizes a run parses print again within the digit limit, so the form
      can be encoded exactly when its step count can. */
  lemma RequestEncodable(words: seq<string>, typed: string, size: string, steps: int,
                         negativePrompt: string, instruction: string)
    requires ParseSize(size).Ok?
    ensures Encodable(RequestOf(words, typed, size, steps, negativePrompt, instruction)) <==> WithinStrLimit(steps)
  {
    var parts := Split(size, 'x');
    ParseIntFits(parts[0]);
    ParseIntFits(parts[1]);
  }

  /** One run of the client. The words, the typed line, the HTTP exchange, the
      digest and the image library's reading of the metadata are parameters. */
  method Run(words: seq<string>, typed: string, size: string, steps: int,
             negativePrompt: string, instruction: string, action: string,
             post: Form -> Response, sha256: Bytes -> HexDigest,
             readInfo: Bytes -> Option<seq<(string, string)>>)
    returns (out: Outcome)
    ensures ParseSize(size).Err? ==> out == BadSize(ParseSize(size).error)
    ensures ParseSize(size).Ok? && post(RequestOf(words, typed, size, steps, negativePrompt, instruction)).status != 200 ==>
      var resp := post(RequestOf(words, typed, size, steps, negativePrompt, instruction));
      out == FailureOutcome(resp.status, resp.text, resp.json)
    ensures ParseSize(size).Ok? && post(RequestOf(words, typed, size, steps, negativePrompt, instruction)).status == 200 ==>
      var form := RequestOf(words, typed, size, steps, negativePrompt, instruction);
      var data := post(form).content;
      && (readInfo(data).None? ==> out == Crashed(UnreadableImage))
      && (readInfo(data).Some? ==>
            && out.Saved? && out.rows == readInfo(data).value
            && out.fileName == FileName(form.prompt, sha256(data))
            && out.viewer == if action == "" then None else Some([action, out.fileName]))
    ensures out.Failed? ==> out.status != 200
  {
    var parsed := ParseSize(size);
    if parsed.Err? {
      return BadSize(parsed.error);
    }
    var form := RequestOf(words, typed, size, steps, negativePrompt, instruction);
    var resp := post(form);
    if resp.status != 200 {
      return FailureOutcome(resp.status, resp.text, resp.json);
    }
    out := SaveImage(form.prompt, resp.content, action, sha256, readInfo);
  }
}
