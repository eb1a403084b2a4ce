# Astra AI job tracker — a Dafny model of its core

Astra AI is a browser assistant that keeps a list of job applications. The
user talks to it by voice (a live Gemini session streaming 16 kHz PCM up
and 24 kHz PCM down) or by text. The model answers with tool calls that
save, list, update or delete applications. A Gmail sync reads recent mail
and returns the same kind of calls. This project models the parts of the
app that decide what happens to that list and to the session:

- **Jobs** (`jobs.dfy`): the job store of `useJobApplications`, as a class whose `apps` field the save, delete, update-status and clear operations reassign. Each operation is specified by a pure function on the list and its reply message.
- **Batching** (`batching.dfy`): the same store as written under React's batched state updates, where `applicationsRef` lags behind the queued updaters.
- **Tools** and **Chat** (`tools.dfy`, `chat.dfy`): the assistant view. It covers the tool dispatcher, the voice-turn handler, the text-chat submit guard, and the loop that runs each returned call and assembles the reply with `[Action: …]` notes.
- **Bytes**, **Base64** and **Audio** (`bytes.dfy`, `base64.dfy`, `audio.dfy`):
  - binary strings;
  - `btoa`/`atob`, with base 64 as in section 4 of RFC 4648 and the forgiving decode that browsers apply;
  - the PCM codec: `decode`, `encode`, `decodeAudioData` into a two-dimensional array of channels, and `createAudioBlob` with its clamp and asymmetric scaling.
- **Voice** (`voice.dfy`): the live session as a state machine. One transition function per callback is used by a class that runs each callback. It covers the start guard, capture, tool responses, transcription buffers, turn completion, gapless chunk scheduling, interruption, ended events, errors, close and stop.
- **Uri** and **Gemini** (`uri.dfy`, `gemini.dfy`):
  - the key lookup and client creation;
  - the tool schema;
  - `decodeBase64Url`: url-safe alphabet, padding, `atob`, `%XX` escaping and a UTF-8 `decodeURIComponent` per RFC 3629;
  - the recursive mail-body extraction;
  - the header mapping of a fetched message and the removal of failed fetches.
- **Dashboard** (`dashboard.dfy`): the search-and-filter predicate of the dashboard and "remove rejected", which deletes each rejected application through the store.
- **Markdown** (`markdown.dfy`): `parseMarkdown` of the transcription log. It runs the four lazy, non-greedy regular-expression replacements in order, then turns line feeds into `<br />`.
- **App** (`app.dfy`):
  - recognising an OAuth redirect;
  - the callback page's once-only hand-over of token, code or error;
  - the shell's success and error handlers;
  - the Gmail sync, which runs the returned save and update calls against the store.
- **Text** and **Wrappers** (`text.dfy`, `wrappers.dfy`): ASCII lower-casing, `includes`, `trim`, decimal rendering, `Option`/`Result` and search in sequences.

The audio codec is not a round trip: a positive sample played and
captured again comes back one lower (`Audio.RequantizePlayedSample`).

## Model

| member | source | states |
|---|---|---|
| Wrappers.FindIndex | src/hooks/useJobApplications.js:35-42 | Array.findIndex: an index is returned only where the predicate holds and it holds nowhere before; None exactly when it holds nowhere |
| Wrappers.Find | src/hooks/useJobApplications.js:72 | Array.find: a found element is in the list and satisfies the predicate; None exactly when no element does |
| Text.Lower | src/hooks/useJobApplications.js:36-37 | toLowerCase keeps the length and lower-cases each character |
| Text.LowerIdempotent | src/hooks/useJobApplications.js:82 | lower-casing twice is lower-casing once |
| Text.ContainsAt | src/hooks/useJobApplications.js:82 | includes is true when the needle occurs at some position |
| Text.ContainsWitness | src/hooks/useJobApplications.js:82 | when includes is true there is a position where the needle occurs |
| Text.TrimStart | src/components/AssistantView.js:107 | the result is a suffix that starts with a non-space, and everything dropped is white space |
| Text.TrimEnd | src/components/AssistantView.js:107 | the result is a prefix that ends with a non-space, and everything dropped is white space |
| Text.TrimIsCore | src/components/AssistantView.js:107-109 | trim returns a slice whose ends are not white space, with only white space cut on either side |
| Text.TrimEmptyIff | src/components/AssistantView.js:107 | trim is empty exactly when the input is all white space (the submit guard's test) |
| Text.TrimKeepsCore | src/hooks/useVoiceSession.js:132-133 | a text without white space at its ends is left unchanged |
| Text.TrimIdempotent | src/hooks/useVoiceSession.js:132-133 | trimming a trimmed text changes nothing |
| Text.NatToString | src/hooks/useJobApplications.js:98 | the decimal rendering of the list position is a non-empty run of digits |
| Text.NatToStringRoundTrip | src/hooks/useJobApplications.js:98 | reading the rendered digits back gives the number |
| Text.CountCharAppend | src/hooks/useJobApplications.js:97-100 | line feeds of a concatenation add up |
| Text.CountCharAbsent | src/hooks/useJobApplications.js:97-100 | a text without line feeds counts none |
| Text.JoinNewlines | src/hooks/useJobApplications.js:97-99 | joining n lines free of line feeds with '\n' gives n-1 line feeds |
| Text.JoinOccurrence | src/hooks/useJobApplications.js:97-99 | every line joined into a text occurs in it, at the position returned |
| Jobs.FindByCompany | src/hooks/useJobApplications.js:103-107 | the job found is in the list and its lower-cased company includes the lower-cased query; none is found exactly when no job matches |
| Jobs.ReplaceById | src/hooks/useJobApplications.js:27 | mapping a record over the list by id keeps its length |
| Jobs.DeleteApps | src/hooks/useJobApplications.js:74 | the filtered list keeps only jobs of the list whose id differs |
| Jobs.JobLines | src/hooks/useJobApplications.js:97-98 | one line per application |
| Jobs.JobStore.constructor | src/hooks/useJobApplications.js:9-16 | with nothing saved the store starts empty, and it is well formed |
| Jobs.JobStore.Save | src/hooks/useJobApplications.js:22-69 | the new list and the reply are those of saveJobApplication, and ids stay unique when the generated id is fresh |
| Jobs.JobStore.Delete | src/hooks/useJobApplications.js:71-78 | the list loses the jobs with that id; the reply names the company, or says none was found |
| Jobs.JobStore.UpdateStatus | src/hooks/useJobApplications.js:80-91 | the first job whose company matches gets the new status; the reply says which, or that none matched |
| Jobs.JobStore.Clear | src/hooks/useJobApplications.js:109-112 | the list becomes empty |
| Jobs.SaveKeepsWellFormed | src/hooks/useJobApplications.js:22-69 | a save with a fresh generated id keeps every id distinct and non-empty |
| Jobs.DeleteKeepsWellFormed | src/hooks/useJobApplications.js:74 | deleting keeps ids distinct and non-empty |
| Jobs.UpdateStatusKeepsWellFormed | src/hooks/useJobApplications.js:85-87 | a status update keeps ids distinct and non-empty |
| Jobs.SaveWithIdReplaces | src/hooks/useJobApplications.js:26-31 | a save carrying an id replaces exactly the records with that id, and leaves the list alone when none has it |
| Jobs.SaveMergesFirstDuplicate | src/hooks/useJobApplications.js:35-55 | an id-less save matching an existing application overwrites the first match, keeps that record's id and says "Updated existing application" |
| Jobs.SavePrependsNew | src/hooks/useJobApplications.js:57-68 | an id-less save matching nothing puts the new record, with the generated id, first |
| Jobs.SaveIdempotent | src/hooks/useJobApplications.js:35-68 | saving the same data twice gives the list of saving it once (the duplicate check catches the second save) |
| Jobs.SaveTwiceAddsAtMostOne | src/hooks/useJobApplications.js:35-68 | two identical id-less saves add at most one record |
| Jobs.DeleteExisting | src/hooks/useJobApplications.js:71-75 | deleting a present id removes exactly that record and keeps the order of the rest |
| Jobs.DeleteUnique | src/hooks/useJobApplications.js:74 | when one record has the id, the filter removes exactly that one |
| Jobs.DeleteExistingMessage | src/hooks/useJobApplications.js:75 | the reply to deleting a present id names its company |
| Jobs.DeleteMissing | src/hooks/useJobApplications.js:77 | deleting an absent id changes nothing and says it could not be found |
| Jobs.UpdateStatusFirstMatch | src/hooks/useJobApplications.js:80-91 | without a match nothing changes and the reply quotes the query; otherwise exactly the first matching record gets the new status |
| Jobs.ListHasOneLinePerJob | src/hooks/useJobApplications.js:93-101 | with single-line fields the list reply has exactly one line per job below its header |
| Jobs.ListShowsEveryJob | src/hooks/useJobApplications.js:93-101 | a non-empty list reply starts with the header giving its size, and each job occurs in it as the line "n. company - role (status)" numbered from 1 |
| Jobs.ListEmpty | src/hooks/useJobApplications.js:95 | an empty list is reported as "You haven't added any job applications yet." |
| Jobs.FindEmptyQuery | src/hooks/useJobApplications.js:103-107 | an empty query matches the first job |
| Batching.Render | src/hooks/useJobApplications.js:17-20 | a render applies every queued update and copies the committed list into the ref |
| Batching.LostStatusUpdate | src/App.js:149-158 | as written, update_job_status followed by save_job_application in one batch loses the status update; applied one after the other it survives |
| Batching.StatusSurvivesLaterSave | src/hooks/useJobApplications.js:22-91 | in the sequential store, a status update survives any later id-less save |
| Tools.HandleToolCall | src/components/AssistantView.js:38-56 | the reply and the new list are those of the dispatcher, and the store stays well formed |
| Tools.OtherToolsDoNothing | src/components/AssistantView.js:40-53 | an unknown tool gives the empty reply and leaves the list alone |
| Tools.SyncToolIgnored | src/components/AssistantView.js:40-53 | sync_gmail_emails is not dispatched here: empty reply, no change |
| Tools.ListToolReadsOnly | src/components/AssistantView.js:43-44 | listing never changes the list, and an empty list gives the "no applications" reply |
| Tools.DeleteToolRemovesFirstMatch | src/components/AssistantView.js:47-51 | delete removes exactly the first job whose company matches and names it |
| Tools.DeleteToolMiss | src/components/AssistantView.js:49-51 | without a match delete answers "Could not find a job for …" and changes nothing |
| Tools.ToolIds | src/components/AssistantView.js:38-56 | a tool call introduces no id except the generated one |
| Tools.SaveIds | src/hooks/useJobApplications.js:22-69 | a save introduces no id except the generated one |
| Tools.UpdateIds | src/hooks/useJobApplications.js:80-91 | a status update introduces no id |
| Tools.ToolKeepsWellFormed | src/components/AssistantView.js:38-56 | every tool call keeps ids distinct and non-empty |
| Chat.VoiceTurnMessages | src/components/AssistantView.js:59-82 | a voice turn appends the user message when non-empty and then the assistant message when non-empty, nothing for an empty turn |
| Chat.AssembleAfterText | src/components/AssistantView.js:123-135 | with response text, every result is appended as an "[Action: …]" note |
| Chat.AssembleAppend | src/components/AssistantView.js:126-135 | assembling over two batches of results is assembling over their concatenation |
| Chat.AssembleAllEmpty | src/components/AssistantView.js:129-130 | with no text and only empty results the reply stays empty |
| Chat.AssembleWithoutText | src/components/AssistantView.js:129-133 | with no text, the first non-empty result becomes the reply and the later ones become notes |
| Chat.AssembleStep | src/components/AssistantView.js:129-133 | one more result extends the reply by one step |
| Chat.RunCalls | src/components/AssistantView.js:126-135 | at most one result per returned part |
| Chat.RunCallsOneResultPerCall | src/components/AssistantView.js:126-135 | exactly one result per part that holds a function call |
| Chat.FreshFromStep | src/components/AssistantView.js:126-135 | the ids not yet used stay fresh after one more call |
| Chat.RunCallsStep | src/components/AssistantView.js:127-128 | a part with a function call contributes its result and its new list to the run |
| Chat.RunCallsSkip | src/components/AssistantView.js:127 | a part without a function call contributes nothing |
| Chat.ChatView.constructor | src/components/AssistantView.js:25-35 | no messages, empty input, not thinking, no error |
| Chat.ChatView.OnVoiceTurn | src/components/AssistantView.js:59-82 | the messages grow by the voice turn's messages; nothing else changes |
| Chat.ChatView.ReportError | src/components/AssistantView.js:85-87 | the error becomes the message; nothing else changes |
| Chat.ChatView.SubmitText | src/components/AssistantView.js:105-119 | a blank input or a pending reply sends nothing and changes nothing; otherwise the trimmed text is sent and appended, the input cleared and thinking set |
| Chat.ChatView.ReceiveReply | src/components/AssistantView.js:121-150 | the store ends as running every call in order, and one assistant message with the assembled reply is appended; thinking is cleared |
| Chat.ChatView.ReceiveFailure | src/components/AssistantView.js:146-150 | the service error is reported and thinking is cleared |
| Bytes.BinaryString | src/services/audioUtils.js:29-30 | String.fromCharCode over bytes: one character per byte with that code |
| Bytes.CharCodes | src/services/audioUtils.js:15-16 | charCodeAt over a binary string: one byte per character |
| Bytes.CharCodesOfBinaryString | src/services/audioUtils.js:11-33 | bytes to binary string and back is the identity |
| Bytes.BinaryStringOfCharCodes | src/services/audioUtils.js:11-33 | binary string to bytes and back is the identity |
| Base64.AlphaValue | src/services/audioUtils.js:12 | the value of an alphabet character encodes back to that character |
| Base64.AlphaRoundTrip | src/services/audioUtils.js:12 | every sextet's character decodes to that sextet |
| Base64.Sextets | src/services/audioUtils.js:32 | 4 sextets per 3 bytes, plus 2 or 3 for a trailing partial group |
| Base64.Digits | src/services/audioUtils.js:32 | the unpadded digits are alphabet characters, one per sextet |
| Base64.Encode | src/services/audioUtils.js:32 | the padded encoding has 4 characters per started 3 bytes, all alphabet or '=' |
| Base64.Btoa | src/services/audioUtils.js:32 | btoa fails exactly on a string with a character above 255 |
| Base64.RemoveWhitespace | src/services/audioUtils.js:12 | the forgiving decode drops ASCII white space and changes nothing else |
| Base64.Values | src/services/audioUtils.js:12 | one sextet per alphabet character |
| Base64.Atob | src/services/audioUtils.js:12 | what atob returns is a binary string |
| Base64.DecodeSextetsOfSextets | src/services/audioUtils.js:12-32 | the sextets of any byte string decode back to it |
| Base64.AtobOfEncode | src/services/audioUtils.js:12-32 | atob of the encoding of bytes is their binary string |
| Base64.StripPaddingOfEncode | src/services/audioUtils.js:12 | removing the padding of an encoding leaves its digits |
| Base64.AtobBtoa | src/services/audioUtils.js:12-32 | btoa succeeds on every binary string and atob undoes it |
| Base64.AtobRejectsOneLeftover | src/services/audioUtils.js:12 | a digit count of 1 modulo 4 is rejected |
| Audio.Decode | src/services/audioUtils.js:11-19 | decode fails exactly where atob throws, and otherwise returns the character codes of the decoded string |
| Audio.CharCodeArray | src/services/audioUtils.js:13-18 | the filled array holds the character codes |
| Audio.Encode | src/services/audioUtils.js:26-33 | encode returns btoa of the bytes' binary string, which atob undoes |
| Audio.EncodeThenDecode | src/services/audioUtils.js:11-33 | decode(encode(bytes)) returns the same bytes |
| Audio.Int16At | src/services/audioUtils.js:44 | a little-endian sample read from two bytes lies in the 16-bit range |
| Audio.SampleValue | src/services/audioUtils.js:51 | a sample divided by 32768 lies in [-1, 1) |
| Audio.DecodeAudioData | src/services/audioUtils.js:43-55 | decoding fails exactly when the byte count is odd (the Int16Array constructor throws) or there is not one whole frame (createBuffer throws for a length of 0); otherwise the buffer has numChannels rows of floor(samples / numChannels) frames, frame i of channel c is interleaved sample i * numChannels + c over 32768, and every value lies in [-1, 1) |
| Audio.FrameSample | src/services/audioUtils.js:50-51 | every frame's interleaved index is a sample present in the data |
| Audio.Clamp | src/services/audioUtils.js:67 | the clamp lies in [-1, 1] and keeps values already there |
| Audio.Trunc | src/services/audioUtils.js:68 | storing into an Int16Array truncates toward zero |
| Audio.ToInt16 | src/services/audioUtils.js:64-68 | Int16Array storage wraps modulo 65536 into the 16-bit range and keeps values already there |
| Audio.Quantize | src/services/audioUtils.js:67-68 | a quantized sample lies in the 16-bit range |
| Audio.Quantized | src/services/audioUtils.js:63-69 | one 16-bit value per input sample |
| Audio.PcmBytes | src/services/audioUtils.js:71 | two bytes per sample |
| Audio.CreateAudioBlob | src/services/audioUtils.js:62-74 | the blob carries the encoded little-endian PCM of the quantized samples, which atob recovers, with mime type "audio/pcm;rate=16000" |
| Audio.QuantizeEnds | src/services/audioUtils.js:67-68 | -1 maps to -32768, 0 to 0 and 1 to 32767, and out-of-range input saturates |
| Audio.QuantizeScales | src/services/audioUtils.js:68 | negative samples scale by 32768 and the others by 32767, truncated |
| Audio.Int16AtPcmBytes | src/services/audioUtils.js:44-71 | reading back a written sample gives it |
| Audio.RequantizePlayedSample | src/services/audioUtils.js:51-68 | a played sample captured again is unchanged when at most 0 and one lower when positive |
| Uri.HexValue | src/services/geminiService.js:239 | a hex digit's value is below 16 |
| Uri.HexRoundTrip | src/services/geminiService.js:239 | a value's hex digit reads back as that value |
| Uri.PercentEscape | src/services/geminiService.js:238-240 | three characters per byte |
| Uri.Escape | src/services/geminiService.js:238-240 | one escaped token per byte |
| Uri.TokensOfPercentEscape | src/services/geminiService.js:236-240 | the '%XX' text of bytes tokenizes back to those bytes |
| Uri.DecodeFirst | src/services/geminiService.js:236 | a decoded character uses between one and all remaining tokens |
| Uri.EncodeChar | src/services/geminiService.js:236 | UTF-8 uses 1 to 4 bytes per character |
| Uri.Utf8Encode | src/services/geminiService.js:236 | UTF-8 uses at least one byte per character |
| Uri.DecodeFirstOfEncode | src/services/geminiService.js:236 | a character's UTF-8 bytes decode to it with the right width |
| Uri.DecodeEncodeChar | src/services/geminiService.js:236 | decoding a character's bytes followed by more decodes the rest in the same way |
| Uri.DecodeUtf8Encode | src/services/geminiService.js:236-240 | decodeURIComponent inverts UTF-8 encoding with '%XX' escapes |
| Uri.DecodeAscii | src/services/geminiService.js:236-240 | ASCII bytes decode to the same characters |
| Uri.InvalidLeadRejected | src/services/geminiService.js:236-245 | a byte that cannot start a UTF-8 sequence makes decodeURIComponent throw |
| Uri.BadEscapeRejected | src/services/geminiService.js:236-245 | a '%' not followed by two hex digits makes decodeURIComponent throw |
| Voice.ChunkDuration | src/hooks/useVoiceSession.js:151-171 | a chunk that decodes into a buffer lasts a positive number of seconds; atob failing, an odd byte count or no whole sample gives no chunk |
| Voice.Session.constructor | src/hooks/useVoiceSession.js:13-29 | the session starts IDLE, silent, with no handles and no effects |
| Voice.Session.Start | src/hooks/useVoiceSession.js:43-51 | the state becomes the start transition's |
| Voice.Session.OnOpen | src/hooks/useVoiceSession.js:82-101 | the state becomes the open transition's |
| Voice.Session.OnAudioProcess | src/hooks/useVoiceSession.js:92-98 | the state becomes the capture transition's |
| Voice.Session.StopAllAudio | src/hooks/useVoiceSession.js:31-41 | every source is dropped and the cursor returns to 0; nothing else changes |
| Voice.Session.SendToolResponses | src/hooks/useVoiceSession.js:104-119 | exactly the responses for the non-empty results are sent; nothing else changes |
| Voice.Session.CompleteTurn | src/hooks/useVoiceSession.js:131-139 | the state becomes the turn-complete transition's |
| Voice.Session.PlayAudio | src/hooks/useVoiceSession.js:142-173 | SPEAKING; a chunk is played exactly when the audio decodes into at least one sample, and then it is scheduled at max(cursor, now) for its decoded duration; otherwise (atob, Int16Array or createBuffer throws) only the cursor moves to max(cursor, now) |
| Voice.Session.OnMessage | src/hooks/useVoiceSession.js:102-180 | the tool calls run one by one against the job store through the assistant view's handleToolCall: the results and the new list are those of the dispatch loop, one result per call, and the store stays valid; the session state becomes the message transition's for those results |
| Voice.Session.ApplyMessage | src/hooks/useVoiceSession.js:104-180 | given the tool results, the session state becomes the message transition's and the invariant is kept |
| Voice.Session.OnEnded | src/hooks/useVoiceSession.js:162-167 | the state becomes the ended transition's |
| Voice.Session.OnError | src/hooks/useVoiceSession.js:181-185 | the state becomes the error transition's |
| Voice.Session.OnClose | src/hooks/useVoiceSession.js:186-190 | the state becomes the corrected close transition's |
| Voice.Session.Stop | src/hooks/useVoiceSession.js:201-220 | the state becomes the stop transition's |
| Voice.StartGuarded | src/hooks/useVoiceSession.js:44-47 | starting outside IDLE and ERROR changes nothing |
| Voice.StartFromRest | src/hooks/useVoiceSession.js:43-198 | starting from IDLE or ERROR resets the cursor; on success it is CONNECTING with a session, and on failure it is ERROR with the error message or the default one reported |
| Voice.StartThenOpen | src/hooks/useVoiceSession.js:50-101 | start then open leads to LISTENING with all three handles held |
| Voice.CaptureOnlyWhileOpen | src/hooks/useVoiceSession.js:92-98 | after open each captured buffer is sent as one blob; after stop nothing is sent |
| Voice.ToolResponsesExact | src/hooks/useVoiceSession.js:104-119 | a response is sent for a call exactly when its result is non-empty, with that call's id and name |
| Voice.ToolResponsesBounded | src/hooks/useVoiceSession.js:104-119 | at most one response per call, none when every result is empty |
| Voice.TranscriptFeedsOneBuffer | src/hooks/useVoiceSession.js:122-128 | output text goes to the output buffer, else input text to the input buffer, never both |
| Voice.TurnCompleteClears | src/hooks/useVoiceSession.js:131-139 | turn completion clears both buffers and reports the trimmed turn exactly when one side is non-blank |
| Voice.CompletedTurnTrimmed | src/hooks/useVoiceSession.js:132-133 | a reported turn is already trimmed |
| Voice.ChunkScheduled | src/hooks/useVoiceSession.js:146-172 | a chunk starts at the cursor or now, whichever is later, and runs for its duration; the cursor moves past its end and its new source is added |
| Voice.ChunksDoNotOverlap | src/hooks/useVoiceSession.js:146-171 | consecutive chunks never overlap, and they play back to back when the second arrives in time |
| Voice.ChunkDurationOfSamples | src/hooks/useVoiceSession.js:151-171 | for any samples, the encoded chunk lasts n/24000 seconds for n 16-bit samples, and gives no chunk for an odd or empty byte string |
| Voice.InterruptFlushes | src/hooks/useVoiceSession.js:176-179 | an interruption stops all audio, resets the cursor and returns to LISTENING |
| Voice.UndecodableAudioAborts | src/hooks/useVoiceSession.js:144-156 | audio that does not decode into at least one sample (atob, the Int16Array view or createBuffer throws) leaves SPEAKING with the cursor moved to max(cursor, now) and nothing scheduled |
| Voice.BlankAudioAborts | src/services/audioUtils.js:43-47 | audio " " decodes to no bytes, so createBuffer throws when the voice session plays it: SPEAKING with nothing scheduled and no source added |
| Voice.DecodedAudioPlays | src/hooks/useVoiceSession.js:142-172 | audio that decodes appends exactly one chunk, after the earlier ones, and its duration is the decoded one, which is positive |
| Voice.AsParts | src/hooks/useVoiceSession.js:104-106 | each spoken function call becomes one part holding that call, in order |
| Voice.SpokenCallsOneResultEach | src/hooks/useVoiceSession.js:104-119 | running the spoken calls through the dispatch loop gives exactly one result per call |
| Voice.DispatchToolCalls | src/components/AssistantView.js:38-56 | each spoken call runs in order through handleToolCall against the store with its own fresh id; the results and the new list equal the dispatch loop's, one result per call, and the store stays valid |
| Voice.QuietMessageKeepsPlayback | src/hooks/useVoiceSession.js:102-180 | a message without audio or interruption leaves phase, playback and handles alone |
| Voice.EndedRemoves | src/hooks/useVoiceSession.js:162-167 | an ended source is removed, and the phase becomes LISTENING when none is left |
| Voice.ErrorReported | src/hooks/useVoiceSession.js:181-185 | an error reports the connection message and sets ERROR |
| Voice.CloseKeepsError | src/hooks/useVoiceSession.js:186-190 | close sets IDLE except from ERROR, so an error followed by close stays ERROR |
| Voice.StopIdempotent | src/hooks/useVoiceSession.js:201-220 | stop leads to IDLE, silent, with every handle released, and a second stop changes nothing |
| Voice.EndedAfterStopIgnored | src/hooks/useVoiceSession.js:162-167 | an ended event after stop changes nothing |
| Voice.TransitionsKeepInvariant | src/hooks/useVoiceSession.js:43-220 | every callback keeps THINKING unreached, the cursor non-negative and the playing sources issued |
| Voice.MessageKeepsInvariant | src/hooks/useVoiceSession.js:102-180 | onmessage keeps the same invariant |
| Voice.ErrorThenCloseAsWritten | src/hooks/useVoiceSession.js:186-190 | as written, onclose after onerror sets IDLE; testing the current phase keeps ERROR |
| Voice.EndedAfterStopAsWritten | src/hooks/useVoiceSession.js:162-167 | as written, a stopped source's ended event turns a stopped session to LISTENING; ignoring dropped sources keeps IDLE |
| Gemini.ApiKeyFirstNonEmpty | src/services/geminiService.js:18-20 | the key is the first non-empty one of settings, VITE_GEMINI_API_KEY and VITE_API_KEY, and empty only when all are |
| Gemini.ClientFailsIffNoKey | src/services/geminiService.js:27-33 | client creation fails with the "API key is required" message exactly when no key is found, and otherwise uses the key |
| Gemini.ToolSchemaShape | src/services/geminiService.js:38-96 | five tools with distinct names, required arguments among the declared properties, and the five statuses as the enumeration of every status argument |
| Gemini.RequiredArguments | src/services/geminiService.js:38-96 | the required arguments of each tool |
| Gemini.UrlEncode | src/services/geminiService.js:228 | the url-safe digits of bytes have the length of the standard digits |
| Gemini.Normalize | src/services/geminiService.js:228 | '-' becomes '+', '_' becomes '/', and every other character is kept |
| Gemini.NormalizeUrlEncode | src/services/geminiService.js:228 | normalizing url-safe digits gives the standard digits |
| Gemini.PadCount | src/services/geminiService.js:230-232 | at most three '=' bring the length to a multiple of 4 |
| Gemini.Equals | src/services/geminiService.js:230-232 | the padding is k '=' characters |
| Gemini.DecodeBase64Url | src/services/geminiService.js:225-246 | the padding loop yields decodeBase64Url's value |
| Gemini.PaddingBounded | src/services/geminiService.js:228-232 | the padded text extends the normalized text by at most 3 characters to a multiple of 4, and adds nothing to one that is already a multiple |
| Gemini.PadDigits | src/services/geminiService.js:230-232 | padding the unpadded digits gives the standard encoding |
| Gemini.DecodeUrlOfEncodedText | src/services/geminiService.js:225-246 | any text, UTF-8 encoded and sent url-safe, decodes back to itself |
| Gemini.UndecodableIsEmpty | src/services/geminiService.js:242-245 | where atob throws, the result is "" |
| Gemini.DirectBodyWins | src/services/geminiService.js:257-259 | a payload with body data yields that data, decoded, whatever its parts |
| Gemini.ScanFindsFirst | src/services/geminiService.js:262-272 | the first text/plain or text/html part with data wins when every earlier part yields nothing |
| Gemini.ScanFindsNothing | src/services/geminiService.js:262-275 | when every part yields nothing the result is "" |
| Gemini.BodyComesFromTree | src/services/geminiService.js:253-276 | a non-empty body is the decoded data of some part in the payload tree |
| Gemini.ScanComesFromTree | src/services/geminiService.js:262-272 | the same for the scan over parts |
| Gemini.HeaderValueFirst | src/services/geminiService.js:373-379 | a header lookup gives the first header with that name, or the fallback when it is missing or empty |
| Gemini.MapEmailDefaults | src/services/geminiService.js:367-380 | from, subject and date are never empty, the three date fields agree, the body falls back to the snippet, and without Received the date is "Unknown" |
| Gemini.Fetched | src/services/geminiService.js:384 | filter(Boolean) keeps at most every result |
| Gemini.FetchedKeepsExactly | src/services/geminiService.js:384 | exactly the successful fetches are kept, all of them when none failed |
| Dashboard.Filtered | src/components/JobDashboard.js:34-84 | the filter keeps at most every application |
| Dashboard.FilteredExactly | src/components/JobDashboard.js:34-84 | the shown list is a subsequence of the list, holding exactly the jobs that match both the search and the option |
| Dashboard.EmptyTermMatchesAll | src/components/JobDashboard.js:36-38 | an empty search matches every job |
| Dashboard.SearchIgnoresCase | src/components/JobDashboard.js:36-38 | search ignores case, and only company and role matter |
| Dashboard.StatusOptionExact | src/components/JobDashboard.js:70-77 | a status option keeps exactly the jobs with that status |
| Dashboard.OtherOptionsKeepAll | src/components/JobDashboard.js:78-81 | "all" and any unknown option keep every job |
| Dashboard.NoFilterShowsAll | src/components/JobDashboard.js:34-84 | with no search and "all", the whole list is shown |
| Dashboard.DateOptions | src/components/JobDashboard.js:45-69 | an undated job never passes a date option; otherwise "today" is the same day, "week" at most 7 days back, "month" from the same day last month |
| Dashboard.Rejected | src/components/JobDashboard.js:103 | exactly the applications with status Rejected |
| Dashboard.NotRejected | src/components/JobDashboard.js:101-106 | exactly the applications with any other status |
| Dashboard.IdsOf | src/components/JobDashboard.js:104 | the ids handed to onDelete, in order |
| Dashboard.DeleteFromWithout | src/components/JobDashboard.js:104 | deleting one more id extends the set of removed ids |
| Dashboard.WithoutIdsIgnoresAbsent | src/components/JobDashboard.js:104 | removing an id not in the list changes nothing |
| Dashboard.HeadIdUnique | src/hooks/useJobApplications.js:74 | in a well-formed list the first id does not recur |
| Dashboard.WithoutRejectedIds | src/components/JobDashboard.js:101-106 | removing the ids of the rejected jobs leaves exactly the others |
| Dashboard.WithoutNothing | src/components/JobDashboard.js:104 | removing no id changes nothing |
| Dashboard.PrefixStep | src/components/JobDashboard.js:104 | one more delete removes the next rejected id |
| Dashboard.RemoveRejected | src/components/JobDashboard.js:101-106 | unconfirmed, nothing changes; confirmed, the rejected ids are deleted in order and the store keeps exactly the applications that are not rejected |
| Markdown.FindClose | src/components/TranscriptionLog.js:14-18 | the lazy closing marker is the first marker on the same line, and none is found only when every later marker lies past a line terminator |
| Markdown.Breaks | src/components/TranscriptionLog.js:20 | after the last step no line feed is left, and a text without line feeds is unchanged |
| Markdown.EmptyRendersEmpty | src/components/TranscriptionLog.js:10 | a missing or empty text renders as "" |
| Markdown.NoLineFeedOut | src/components/TranscriptionLog.js:9-21 | the rendering never contains a line feed |
| Markdown.NoMarkerUnchanged | src/components/TranscriptionLog.js:14-18 | a replacement with no marker left changes nothing |
| Markdown.ReplaceWithoutMarkerChar | src/components/TranscriptionLog.js:14-18 | text without the marker character passes through a replacement unchanged |
| Markdown.PlainTextUnchanged | src/components/TranscriptionLog.js:9-21 | text without '*', '_' or line feeds renders as itself |
| Markdown.FindCloseAfter | src/components/TranscriptionLog.js:14-18 | the first same-line marker is the one the lazy match closes on |
| Markdown.WrapRewritten | src/components/TranscriptionLog.js:14-18 | a plain text wrapped in a rule's marker is wrapped in the rule's tags |
| Markdown.TaggedPlain | src/components/TranscriptionLog.js:14-18 | tags around plain text introduce no marker and no line feed |
| Markdown.BoldRendered | src/components/TranscriptionLog.js:14-15 | "**x**" and "__x__" render as strong x |
| Markdown.ItalicRendered | src/components/TranscriptionLog.js:17-18 | "*x*" and "_x_" render as emphasised x |
| Markdown.ItalicAloneMisreadsBold | src/components/TranscriptionLog.js:14-17 | the italic rule alone would misread bold, so the bold rules must run first |
| App.Split | src/App.js:28 | splitting gives pieces without the separator that, joined with it, give back the text; the first piece starts the text and every piece occurs in it |
| App.ParseParam | src/App.js:28-34 | a piece without '=' is a name with an empty value; otherwise the piece is name, '=' and value, with no '=' in the name |
| App.Get | src/App.js:29-34 | URLSearchParams.get gives nothing exactly when no parameter has that name, and otherwise the value of the first parameter with that name |
| App.Lookup | src/App.js:26-34 | a found token, code or error is never empty |
| App.OAuthCallback.constructor | src/App.js:20 | nothing has been sent yet |
| App.OAuthCallback.HandleAuth | src/App.js:22-62 | the state becomes that of one handleAuth run |
| App.DeliveriesAppend | src/App.js:36-58 | deliveries of two runs add up |
| App.DeliverCount | src/App.js:36-58 | a run that finds something hands over exactly once, otherwise never |
| App.HandedOverAtMostOnce | src/App.js:20-61 | across any sequence of effect runs, the callback page hands over exactly once if it has sent, else never |
| App.AuthRunsCount | src/App.js:20-61 | the hand-over count stays tied to hasSent across runs |
| App.SentIsFinal | src/App.js:24 | once sent, further runs do nothing |
| App.LookupPriority | src/App.js:26-58 | a hash token beats a query code, which beats an error (query error before hash error); finding nothing does nothing |
| App.OpenerRouting | src/App.js:40-58 | in a popup, code and error are posted to the opener; otherwise they go to onSuccess or onError; a token never uses the opener |
| App.ContainsTransitive | src/App.js:89-93 | includes is transitive |
| App.QueryNamesOccur | src/App.js:92-93 | a parameter found in the query string is named in it |
| App.FoundImpliesRecognised | src/App.js:84-97 | a location where the callback finds a token, a code or a query error is recognised as a callback |
| App.SplitWithoutSeparator | src/App.js:28 | a text without the separator is one piece |
| App.ParseNameValue | src/App.js:28 | "name=value" parses into that name and value |
| App.HashErrorParams | src/App.js:28 | "error=e" parses into a single error parameter |
| App.EmptyQuery | src/App.js:32 | an empty query has no parameters |
| App.HashErrorAloneUnrecognised | src/App.js:34-97 | an error only in the hash is found by the callback page, but a short one does not make the app show that page |
| App.SuccessSettingsAsWritten | src/App.js:114-122 | as written, success marks Gmail connected and stores the whole payload object as the token |
| App.TokenStoredAsObject | src/App.js:38-118 | after the implicit flow the stored "token" is not a usable token |
| App.SuccessStoresToken | src/App.js:114-122 | corrected, an access token is stored as text, and a code leaves the stored token alone |
| App.SavesAndUpdates | src/App.js:149-158 | the sync keeps only save and update calls, in place |
| App.SyncIsDispatch | src/App.js:149-158 | the sync loop is the assistant's dispatcher run over only the save and update calls |
| App.OtherCallsIgnored | src/App.js:149-158 | calls other than save and update leave the list alone |
| App.SyncStepIds | src/App.js:149-158 | a sync step introduces no id except the generated one |
| App.Shell.constructor | src/App.js:78-81 | assistant tab, not syncing, not a callback, no alerts |
| App.Shell.DetectCallback | src/App.js:84-97 | the callback flag is set exactly for a recognised location, and nothing else changes |
| App.Shell.OAuthSuccess | src/App.js:114-122 | settings become the corrected success settings (Gmail connected, and for an access token its text stored); the callback page closes on the settings tab |
| App.Shell.OAuthError | src/App.js:125-130 | one "Gmail connection failed: " alert; the callback page closes on the settings tab |
| App.Shell.SyncGmail | src/App.js:133-165 | disconnected or already syncing, nothing changes; otherwise the refreshed token is stored, the calls are run, or the failure is alerted; syncing ends |
| App.Shell.RunSync | src/App.js:149-158 | the store ends as the sync of the returned calls |

## Left out

- localStorage persistence and JSON (de)serialisation of the list and the settings (src/hooks/useJobApplications.js:9-20, the settings hook): the store starts empty, as it does when nothing is saved.
- Network and SDK calls are parameters or are not part of this model:
  - sendTextMessage: its text and parts are parameters; a throw is ReceiveFailure.
  - createVoiceSession: its outcome and messages are parameters.
  - analyzeResume.
  - The model call inside syncGmailEmails: its result is a parameter.
  - The fetch, token refresh and 401 retry of fetchGmailEmails.
  - The token exchange.
- The Web Audio graph: contexts, analyser, microphone, script processor wiring and promises. Each callback runs to completion; the audio clock's `currentTime` is the parameter `now`, and chunk durations come from the decoded sample count.
- Float32 and float64 rounding: samples are exact reals.
- Unicode case mapping: `toLowerCase` is modelled on ASCII letters only.
- URLSearchParams percent-decoding and '+' handling: parameters are split on '&' and '=' only.
- Date parsing: the day of a date string is the parameter `dayOf`, today's day is a parameter, and the calendar day a month back is the parameter `monthAgo`.
- `Date.now()` and `Math.random()` ids are the parameters `freshId`/`freshIds`, required to be fresh and distinct.
- Tool calls with missing arguments read as "" instead of throwing a TypeError.
- `window.confirm` is the parameter `confirmed`. `alert` is an appended alert text. `console` output is not modelled.
- Jobs.JobStore: the store is modelled sequentially, with every call seeing the previous call's result. The batched behaviour of React state updates is modelled separately in Batching (see Findings).
- App.Shell.SyncGmail:
  - does not model the stale-closure view of `settings.isGmailConnected` and `isSyncingGmail` (it reads the current fields);
  - does not model an exception thrown by a store call inside the loop.
- getSystemInstruction (prompt text) and the resume analyser are not part of this model.
- Voice.Phase THINKING is declared but never entered by the code. The invariant states that it is never reached.
- App.Shell.OAuthSuccess uses the corrected SuccessSettings, which stores the token text. The handler as written is SuccessSettingsAsWritten (see Findings).
- Voice.Session.OnClose uses the corrected close transition. The transition as written is CloseAsWritten (see Findings).
- Voice.Session.OnEnded ignores sources that are no longer playing, which is the corrected behaviour. The listener as written is EndedAsWritten (see Findings).
- decodeURIComponent is modelled as UTF-8 decoding into Unicode scalar values, not into UTF-16 code units. Surrogate pairs and encoded surrogates are not distinguished.

## Findings

| source | as written | input that shows it | evidently intended | confidence | as-written member | corrected member |
|---|---|---|---|---|---|---|
| src/hooks/useJobApplications.js:80-91 | updateJobStatus and deleteJobApplication queue an updater and leave applicationsRef stale, while saveJobApplication queues a whole new list computed from the ref | a Gmail sync returning update_job_status(acme, Offer) and then save_job_application(beta) ends with acme still Applied | later calls in a batch see earlier ones, so the status update survives | not executed | Batching.LostStatusUpdate | Batching.StatusSurvivesLaterSave |
| src/hooks/useVoiceSession.js:186-190 | onclose tests the `state` captured when startSession ran, not the current one | start from IDLE, open, then onerror followed by onclose: the session ends IDLE and the error state is lost | close keeps ERROR | not executed | Voice.ErrorThenCloseAsWritten | Voice.CloseKeepsError |
| src/hooks/useVoiceSession.js:162-167 | the 'ended' listener runs for sources stopAllAudio already dropped, and sets LISTENING when the set is empty | stopSession while a chunk plays: IDLE, then the stopped source's ended event sets LISTENING with no session | a stopped session stays IDLE | not executed | Voice.EndedAfterStopAsWritten | Voice.EndedAfterStopIgnored |
| src/App.js:114-122 | handleOAuthSuccess stores the object `{ accessToken }` (or `{ code }`) that onSuccess receives as gmailAccessToken | the implicit flow with access_token=abc stores an object, not the text "abc" | the token text is stored | not executed | App.TokenStoredAsObject | App.SuccessStoresToken |
