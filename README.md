# jigs: an image-generation service, its command-line client and its chat bot

This project models, in Dafny, the request path of `jigs`: a small service that
turns a text prompt into a PNG image.

- **The server** (two revisions: the packaged `jigs/server.py` and the older
  single-file `server.py`) takes the form fields of a POST to `/generate`.
  It may first elaborate the prompt with a language model. It builds the
  pipeline's keyword arguments with `maybe_add`, and it records the default
  metadata, the elaboration history and the final prompt as PNG text chunks.
  The modules are `Generation` (shared by both revisions), `JigsServer` and
  `LegacyServer`.
- **The command-line client** (`jigs/client.py`, module `Client`) joins the
  prompt words, parses `--size`, and posts the form. On a non-200 response it
  exits with a failure line. On a 200 response it saves the image under a name
  made from the sanitised prompt and the image's hash, lists the image's text
  chunks and launches the viewer.
- **The chat bot** (`jigs/discord.py`, module `DiscordBot`) reacts to `!`
  messages and to 🔁 / 🖼️ reactions. It strips the prompt, posts a
  placeholder, asks the server for an image, and queues the edit, the
  attachment and the replay reaction.
- **The file-name rule** (module `FileNames`) is shared by the client and the
  bot: every run of characters outside `[a-zA-Z0-9-_]` becomes one `-`, the
  result is cut to 96 characters, and a `-`, the first 8 hex digits of the
  SHA-256 digest and `.png` follow.
- **Python text behaviour** (module `PyText`) is written out: `str.isspace`,
  `strip`, `removeprefix`, `split`, `join`, `int()` on text and `str()` on
  integers.
- **The exchange** (module `Exchange`) puts the pieces together. It states what
  the server does with exactly the form the client sends and the form the bot
  sends.

Collaborators outside the code are parameters of the model:

- `sha256`: the hash, as a function from bytes to a hex digest.
- `post`: the HTTP exchange.
- `readInfo`: PIL's PNG text-chunk reader.
- `elaborate` / `ask` / `run`: the language model, or the shell command.
- `quote`: `shlex.quote`.
- `toFloat`: Python's `float()` on text.

The imperative parts are classes whose methods are proved against the
specification functions:

- `Generation.PngInfo`: the metadata chunks.
- `Generation.ArgDict`: the kwargs dictionary that `maybe_add` mutates.
- `Client.Table`: the rich table.

Behaviour of the code worth knowing:

- The server converts `width` and `height` with `int()` and does not check
  their sign, so `-5` is accepted.
- The bot attaches only the image.
- On a response that raises no exception, the bot edits the placeholder to the
  prompt, whatever the HTTP status. Any non-empty body, an error page included,
  is attached as a `.png`.
- The step count the client sends (`--steps`, default 50) is ignored. Both
  server revisions overwrite `num_inference_steps` with their own constant: 12
  in `jigs/server.py` and 8 in `server.py`.
- In `jigs/server.py` the recorded checkpoint is the 8-step one, while the
  pipeline runs 12 steps (`JigsServer.CheckpointStepsDiffer`).

## Model

| member | source | states |
|---|---|---|
| PyText.Strip | jigs/discord.py:86 | `str.strip()`: the text without its leading and trailing runs of `isspace` characters (properties in `StripSlice`, `StripIdempotent`) |
| PyText.StripSlice | jigs/discord.py:86 | `strip()` returns the slice left after removing the leading and the trailing whitespace runs; the result neither starts nor ends with whitespace |
| PyText.StripIdempotent | jigs/discord.py:86 | stripping twice is stripping once |
| PyText.RemovePrefix | jigs/discord.py:112 | `removeprefix("!")` removes exactly one leading prefix when present and otherwise returns the text unchanged |
| PyText.Split | jigs/client.py:78 | `split` yields at least one part, and no part contains the separator |
| PyText.Join | jigs/client.py:74 | `sep.join(words)`: the words with the separator between each neighbouring pair (properties in `JoinSplit`, `SplitJoin`, `Client.JoinLength`) |
| PyText.JoinSplit | jigs/client.py:78 | joining the parts of a split with the separator gives back the original text |
| PyText.SplitJoin | jigs/client.py:74 | splitting a join of separator-free words gives back the words |
| PyText.ParseInt | jigs/client.py:78 | `int(text)`: skips `int()`'s own whitespace at both ends, takes an optional sign and a decimal literal with single `_` between digits and at most 4300 digits; anything else is `None`, the `ValueError` |
| PyText.IntToString | jigs/client.py:86-88 | `str(i)`: an optional `-` and the decimal digits of the magnitude, as the form fields carry the integers |
| PyText.ParseIntFits | jigs/client.py:78 | every integer `int()` returns has at most 4300 digits, so `str()` prints it again |
| PyText.ParseIntToString | jigs/server.py:107-108 | `int(str(i)) == i` for every integer of at most 4300 digits, the integers `str()` prints, negative ones included |
| PyText.SeparatorPaddingRejected | jigs/server.py:107-108 | `int()` refuses a number padded on either side with U+001C to U+001F, characters `isspace` counts as whitespace |
| PyText.NatToStringInjective | jigs/server.py:45 | distinct step counts print as distinct decimal texts |
| FileNames.UnsafeRunLength | jigs/client.py:22 | the length of the leading run of unsafe characters stops at a safe character or at the end |
| FileNames.UnsafeRunIsUnsafe | jigs/client.py:22 | every character of that leading run lies outside `[a-zA-Z0-9-_]` |
| FileNames.Sanitize | jigs/client.py:105 | `unsafe_chars.sub('-', text)`: each maximal run of characters outside `[a-zA-Z0-9-_]` replaced by one `-` (characterised by `SanitizeSafePrefix` and `SanitizeUnsafeRun`) |
| FileNames.SanitizeLength | jigs/client.py:105 | substitution never lengthens the prompt and empties only the empty prompt |
| FileNames.SanitizeIsSafe | jigs/client.py:105 | after substitution only `[a-zA-Z0-9-_]` remain |
| FileNames.SanitizeSafePrefix | jigs/client.py:105 | safe characters are kept in place, with their case |
| FileNames.SanitizeUnsafeRun | jigs/client.py:22 | a whole run of unsafe characters becomes one `-` |
| FileNames.SanitizeFixesSafe | jigs/client.py:105 | a prompt of safe characters only is left unchanged |
| FileNames.SanitizeIdempotent | jigs/client.py:105 | substituting twice is substituting once |
| FileNames.SanitizeKeepsWordChars | jigs/client.py:105 | the letters, digits and `_` of the prompt survive in order; only separators change |
| FileNames.NamePrefix | jigs/client.py:105 | the name prefix is safe, at most 96 characters, and a prefix of the substituted prompt of length min(96, its length) |
| FileNames.TruncatesAfterSubstitution | jigs/client.py:105 | the cut to 96 happens after the substitution: 100 spaces followed by `cat` give `-cat`, not the `-` that cutting first would give |
| FileNames.FileName | jigs/client.py:104-105 | the substituted prompt cut to 96 characters, `-`, the first 8 hex digits of the digest and `.png`; the bot builds the same name at `jigs/discord.py:92-93` (properties in `FileNameParts`, `FileNameShape`) |
| FileNames.FileNameParts | jigs/client.py:104-105 | a file name splits back into the name prefix and the first 8 digest digits, joined by `-` and followed by `.png` |
| FileNames.FileNameShape | jigs/client.py:104-105 | a file name has at most 109 characters, all safe characters or `.` |
| FileNames.SameImageSameSuffix | jigs/client.py:104-105 | the same image bytes give the same hash part whatever the prompt |
| FileNames.SamePromptSamePrefix | jigs/client.py:104-105 | the same prompt gives the same prefix whatever the image |
| Client.ChoosePrompt | jigs/client.py:73-76 | with no words the typed line is the prompt; one word is the prompt itself |
| Client.ChoosePromptSplit | jigs/client.py:73-74 | words without spaces split back out of the space-joined prompt |
| Client.JoinLength | jigs/client.py:74 | the joined prompt is as long as the words plus one space between each pair |
| Client.ParseSize | jigs/client.py:78 | `--size` parses exactly when it has two `x`-separated parts that `int()` accepts (its own whitespace set, sign, digits and underscores, at most 4300 digits), and then gives those two numbers |
| Client.SeparatorPaddedSizeRejected | jigs/client.py:78 | a size whose width starts with U+001C to U+001F is refused with that part named |
| Client.OverlongWidthRejected | jigs/client.py:78 | a width of more than 4300 digits is refused with that part named, as `int()` refuses it |
| Client.ParseFormattedSize | jigs/client.py:78 | any `WxH` written from two integers that `str()` prints (at most 4300 digits each) parses back to those integers |
| Client.DefaultSizeParses | jigs/client.py:51-56 | the default `1024x1024` parses to (1024, 1024) |
| Client.DefaultRequest | jigs/client.py:26-56 | with every option at its default the client posts a 1024x1024, 50-step request with an empty negative prompt and asks for an elaboration with the default instruction |
| Client.FormFields | jigs/client.py:82-89 | the form has exactly the six fields, carrying the prompt, negative prompt and instruction as given |
| Client.FormFieldsDecode | jigs/client.py:86-88 | for integers `str()` prints, the width, height and step fields read back through `int()` as the numbers sent |
| Client.FailureOutcome | jigs/client.py:93-100 | a non-200 response reports `error.message` exactly when the body is JSON with an `error` object holding `message`, and the raw text exactly when the body is not JSON, lacks `error`, or its `error` lacks `message`; a non-object `error` (or body) raises uncaught |
| Client.FailureText | jigs/client.py:93-100 | the exit message `Failure <message> (<status>)`, with the JSON error message or the raw body; `None` for a non-text message (see `FailureOutcome`) |
| Client.FailureTextMentions | jigs/client.py:96-100 | the failure line contains the message right after `Failure `, and the status in the final parentheses reads back as the same number |
| Client.Table.AddRow | jigs/client.py:116 | a row is appended and the earlier rows are kept |
| Client.FillTable | jigs/client.py:115-116 | the table holds the image's text chunks in order |
| Client.SaveImage | jigs/client.py:102-121 | the image is saved under `FileName(prompt, sha256(data))`; the table lists its chunks; the viewer is launched on that name only when an action is set; an unreadable image ends in an uncaught error |
| Client.RequestOf | jigs/client.py:73-89 | the posted form carries the parsed size, the steps, the negative prompt, the instruction and the joined words |
| Client.RequestEncodable | jigs/client.py:78-89 | the sizes a run parses print again within the digit limit, so its form can be encoded exactly when its step count can |
| Client.Run | jigs/client.py:72-124 | a bad size fails before posting; a non-200 response ends in the failure outcome for that status and body; a 200 response ends in the saved-image outcome; a failure never reports status 200 |
| Generation.CheckpointName | jigs/server.py:45 | `f"sdxl_lightning_{steps}step_unet.safetensors"`, or `lora` in place of `unet` (properties in `CheckpointNameInjective`, `EightStepUnet`) |
| Generation.CheckpointNameInjective | jigs/server.py:45 | distinct (steps, unet) choices name distinct checkpoint files |
| Generation.EightStepUnet | jigs/server.py:45 | the 8-step UNet checkpoint is `sdxl_lightning_8step_unet.safetensors` |
| Generation.Convert | jigs/server.py:104-110 | the three conversions `maybe_add` is given: `str` keeps the text, `int` is `ParseInt`, `float` is the parameter `toFloat` |
| Generation.Added | jigs/server.py:81-84 | `maybe_add` on values: an absent key changes nothing, a present one is stored converted or fails with that key (properties in `AddedFacts`) |
| Generation.AddedFacts | jigs/server.py:81-84 | `maybe_add` sets the key to its converted value exactly when the request has it, fails only when that conversion raises, and changes no other key |
| Generation.MaybeAdd | jigs/server.py:81-84 | the in-place `maybe_add` leaves the dictionary that `Added` describes, or reports that key's failure |
| Generation.AddAll | jigs/server.py:104-110 | successive `maybe_add` calls, stopping at the first failure (properties in `AddAllFailure`, `AddAllKeys`, `AddAllKeeps`, `AddAllConverts`) |
| Generation.AddAllFailure | jigs/server.py:104-110 | a sequence of `maybe_add` calls fails exactly when some key fails, and then with the first failing key |
| Generation.AddAllKeys | jigs/server.py:104-110 | on success the keys are the initial keys plus the requested keys among those added |
| Generation.AddAllKeeps | jigs/server.py:104-110 | a key that is not both listed and requested keeps its initial value |
| Generation.AddAllConverts | jigs/server.py:104-110 | each requested listed key holds its converted request value |
| Generation.OptionalKeysDistinct | jigs/server.py:104-110 | the seven optional fields are distinct |
| Generation.FinalKwargs | jigs/server.py:100-110 | `{num_inference_steps: steps, guidance_scale: 0}` followed by the seven `maybe_add` calls in source order (properties in the `Kwargs*` lemmas) |
| Generation.KwargsFailure | jigs/server.py:100-110 | building the kwargs fails exactly when an optional field fails to convert, and then names the first optional field, in source order, that fails |
| Generation.KwargsKeys | jigs/server.py:100-110 | the kwargs hold `num_inference_steps`, `guidance_scale` and exactly the optional fields the request supplies |
| Generation.KwargsFixedSteps | jigs/server.py:100-110 | `num_inference_steps` is always the server's constant, whatever the request says |
| Generation.KwargsGuidance | jigs/server.py:100-110 | `guidance_scale` is the integer 0 unless supplied, and then the supplied value through `float()` |
| Generation.KwargsConverted | jigs/server.py:104-110 | every supplied optional field holds its value converted by `str`, `int` or `float` as listed |
| Generation.Generate | jigs/server.py:80-112 | one request: the metadata defaults, the prompt, the optional elaboration and its metadata, then the kwargs; fails on a missing prompt, a failed elaboration or a bad field (properties in `GenerateFailures`, `WithoutInstruction`, `WithInstruction`, `GenerateKwargs`, `MetadataFacts`) |
| Generation.GenerateFailures | jigs/server.py:90-110 | a request fails for a missing prompt exactly when it has none, fails in elaboration exactly when an instruction is given and the elaboration raises, and succeeds exactly otherwise when the fields convert |
| Generation.WithoutInstruction | jigs/server.py:90-98 | without an instruction the prompt goes through verbatim, and the metadata is the defaults followed by the prompt |
| Generation.WithInstruction | jigs/server.py:92-98 | with an instruction the elaboration's answer is the prompt, and the metadata records the original prompt, the instruction and the answer, in that order |
| Generation.GenerateKwargs | jigs/server.py:100-112 | a successful request hands the pipeline the kwargs that `FinalKwargs` describes |
| Generation.MetadataFacts | jigs/server.py:86-98 | the metadata starts with base, repo and checkpoint, ends with the final prompt, and records `original_prompt` and `elaborate_instruction` exactly when an instruction is given |
| Generation.PngInfo.AddText | jigs/server.py:88 | a text chunk is appended and the earlier chunks are kept |
| Generation.ArgDict.constructor | jigs/server.py:100-103 | the dictionary starts with the step count and a guidance scale of 0 |
| Generation.Handle | jigs/server.py:80-112 | the handler's outcome is `Generate`'s, and it asks for one elaboration exactly when a prompt and a non-empty instruction are given |
| Generation.BuildKwargs | jigs/server.py:100-110 | the seven in-place `maybe_add` calls end in `FinalKwargs`, stopping at the first failure |
| Generation.AddKey | jigs/server.py:104-110 | one in-place `maybe_add` advances the remaining sequence of adds by one key, or reports that key's failure |
| JigsServer.Generator.constructor | jigs/server.py:44-75 | the generator records the 8-step UNet checkpoint and the default metadata naming it |
| JigsServer.Generator.Generate | jigs/server.py:80-118 | each request's outcome is `Generate` with 12 steps and the generator's metadata |
| JigsServer.CheckpointIsEightStep | jigs/server.py:25-45 | the checkpoint is the 8-step file, which is not the file for the 12 steps run |
| JigsServer.CheckpointStepsDiffer | jigs/server.py:45-101 | every image records the 8-step checkpoint while the pipeline ran 12 steps |
| LegacyServer.Format | server.py:76 | `str.format` on a template of literal pieces and positional fields `{0}`, `{1}`: each field replaced by its argument |
| LegacyServer.Elaborator | server.py:75-80 | the elaboration as the output of the shell command built from the quoted instruction and prompt (property in `ElaboratedPrompt`) |
| LegacyServer.ElaborationCommand | server.py:75-76 | the command is `chap -S` with the quoted instruction, then `ask --no-print-prompt -n /dev/null` with the quoted prompt |
| LegacyServer.Generate | server.py:59-103 | each request's outcome is `Generate` with 8 steps, the module checkpoint and the shell elaboration |
| LegacyServer.CheckpointIsEightStep | server.py:27-28 | the checkpoint is `sdxl_lightning_8step_unet.safetensors` |
| LegacyServer.CheckpointMatchesSteps | server.py:53-87 | here the recorded checkpoint is the one for the 8 steps run |
| LegacyServer.ElaboratedPrompt | server.py:72-80 | with an instruction, the pipeline's prompt is the output of the command built from the quoted instruction and prompt |
| DiscordBot.OnMessage | jigs/discord.py:73-79 | bots are ignored; a user message triggers exactly when it starts with `!`, and the prompt is the rest |
| DiscordBot.OnReaction | jigs/discord.py:107-112 | a reaction triggers exactly for 🔁 or 🖼️ from a non-bot member, and replays the message with one leading `!` removed |
| DiscordBot.ReplayMatchesTrigger | jigs/discord.py:72-112 | reacting to a triggering message replays the same prompt the message triggered |
| DiscordBot.AGenerate | jigs/discord.py:28-54 | any response gives the prompt and the body, whatever the status; an exception gives its text and no image |
| DiscordBot.BotForm | jigs/discord.py:41-47 | the bot posts the prompt, an empty negative prompt and its fixed, non-empty elaboration instruction, and no size |
| DiscordBot.GenerateCommon | jigs/discord.py:84-103 | the placeholder names the stripped prompt; the edit always comes first; the file, named by the file-name rule, and the 🔁 reaction follow exactly when non-empty bytes came back |
| DiscordBot.ReplayOfReply | jigs/discord.py:86-112 | replaying the bot's own reply gives back the stripped prompt exactly when that prompt does not start with `!` |
| Exchange.KwargsOfSimpleForm | jigs/server.py:100-110 | a form with only text fields and optional integer sizes gives the steps, a guidance scale of 0, the negative prompt and the sizes |
| Exchange.ClientKwargs | jigs/client.py:82-89 | a form whose integers `str()` prints never fails to convert; the server takes its negative prompt and size and ignores its step count |
| Exchange.ClientRequest | jigs/client.py:82-89 | for a form whose integers `str()` prints, a client request succeeds exactly when no elaboration is asked for or the elaboration answers, with the negative prompt and size as kwargs; without an instruction the prompt is the typed one and the metadata ends with it; with one the prompt is the elaboration's answer and the metadata is the defaults plus original_prompt, elaborate_instruction and prompt |
| Exchange.BotRequest | jigs/discord.py:41-47 | a bot request always elaborates; it succeeds exactly when the elaboration answers, at the default size with an empty negative prompt, and records the user's prompt and the instruction |

## Left out

- SHA-256 is a parameter (`sha256`). Only its determinism is used, as a function.
- PNG encoding and decoding with PIL is left out. Reading the text chunks is the parameter `readInfo`, which is `None` when the image cannot be opened.
- The diffusion pipeline, model loading, LoRA weights, device placement and the `functools.cache` memoisation are left out. The model records the prompt and the keyword arguments handed to the pipeline, and the metadata.
- The `FAST` / `fast` stub branches in the server and the bot are development shortcuts and are not modelled.
- HTTP plumbing (bottle and aiohttp routing, `urljoin`, timeouts, the response's content type) is not modelled. A request's fields are a map from names to text. Multi-valued fields and bottle's merging of query and form fields are not modelled.
- The file write, `print` and rich's console rendering are not modelled. The table's rows and the file name are the outcome. The file is written (`jigs/client.py:106-108`) before `Image.open` (`jigs/client.py:114`) can fail, so an unreadable 200 body is still saved under `FileName(prompt, digest)` before the crash; `Crashed(UnreadableImage)` does not name that file.
- PyText.IntToString: `str()` raises `ValueError` for an integer of more than 4300 digits; the model prints every integer, and the lemmas that read a printed integer back (`PyText.ParseIntToString`, `Client.ParseFormattedSize`, `Client.FormFieldsDecode`, `Exchange.ClientKwargs`, `Exchange.ClientRequest`) require at most 4300 digits. The width and height of a run always meet that (`Client.RequestEncodable`).
- The viewer subprocess is modelled as the command it would run, not run.
- The chat service call (`chap` session, `ask`) and the shell command's execution are parameters. Decoding their output (`errors="replace"`) is part of that parameter.
- Client.FailureText: a JSON `message` that is not text is formatted by Python's `str()`, which is not modelled (the result is `None` there).
- Float conversion is the parameter `toFloat`. `int()` is modelled for ASCII digits, signs, `_` separators, the limit of 4300 digits (`sys.get_int_max_str_digits()` at its default; `Client.OverlongWidthRejected`) and the surrounding whitespace it skips: the `isspace` characters other than the information separators U+001C to U+001F, which `int()` rejects (`PyText.SeparatorPaddingRejected`, `Client.SeparatorPaddedSizeRejected`). Non-ASCII Unicode digits are not modelled.
- The Discord SDK is left out: typing indicators, sending, editing and fetching messages, `asyncio.gather` (modelled as the list of queued actions), `process_commands` and the sync command. A reaction event whose `member` is missing (a direct message) is not modelled: the bot would raise there.
- Concurrency is not modelled. Handlers are modelled one at a time, and no state is shared between them in the code.
- `jigs/core.py` is not part of this model. The bot imports `unsafe_chars` from it, and the model takes it to be the same pattern as `jigs/client.py:22`.
- Generation.MaybeAdd: its contract is stated through the function `Added`, whose properties are the lemma `Generation.AddedFacts`.
- Client.SaveImage: the `except (KeyError, IndexError, json.decoder.JSONDecodeError)` around the saving code (`jigs/client.py:123-124`) is not modelled; nothing in the code it guards raises those exceptions.
- LegacyServer.Generate: bottle's `request.params.get` gives the fields decoded as latin-1, so a non-ASCII prompt reaches the pipeline, the shell command and the metadata mis-decoded. The model hands the fields over as the client sent them, so `Exchange.ClientRequest`'s `prompt == form.prompt` describes `jigs/server.py` (aiohttp) and, for `server.py`, only ASCII prompts.
- Uncaught exceptions (a non-object `error` in a failure body, an unreadable image) are modelled as a `Crashed` outcome rather than as the traceback.
