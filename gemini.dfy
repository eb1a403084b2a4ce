/**
 * The service helpers of src/services/geminiService.js: the API key chain
 * and the client's failure condition, the declared tool schema, base64url
 * decoding of Gmail bodies (section 5 of RFC 4648), the walk over a MIME
 * part tree that finds the body (section 5.1 of RFC 2046), and the mapping
 * of a fetched message's headers to an email record.
 *
 * A missing string setting or field is "" here: every use in the source
 * tests it with `||` or a truthiness check, which treats the two alike.
 */
module Gemini {
  import opened Wrappers
  import opened Bytes
  import Base64
  import opened Uri
  import opened Tools

  // ------------------------------------------------------------- API key

  /**
   * getApiKey: the settings key, else VITE_GEMINI_API_KEY, else
   * VITE_API_KEY, else "". The two environment values are parameters.
   */
  function GetApiKey(settingsKey: string, geminiEnv: string, apiEnv: string): (key: string)
  {
    if settingsKey != "" then settingsKey else if geminiEnv != "" then geminiEnv else apiEnv
  }

  lemma ApiKeyFirstNonEmpty(settingsKey: string, geminiEnv: string, apiEnv: string)
    ensures var key := GetApiKey(settingsKey, geminiEnv, apiEnv);
      && (key == "" <==> settingsKey == "" && geminiEnv == "" && apiEnv == "")
      && (settingsKey != "" ==> key == settingsKey)
      && (settingsKey == "" && geminiEnv != "" ==> key == geminiEnv)
      && (settingsKey == "" && geminiEnv == "" ==> key == apiEnv)
  {
  }

  const MissingKeyError := "Gemini API key is required. Please add your API key in Settings."

  /** What createAIClient yields: a client for the key, or the error it throws. */
  datatype ClientResult = Client(apiKey: string) | KeyMissing(message: string)

  function CreateAIClient(settingsKey: string, geminiEnv: string, apiEnv: string): (r: ClientResult)
  {
    var key := GetApiKey(settingsKey, geminiEnv, apiEnv);
    if key == "" then KeyMissing(MissingKeyError) else Client(key)
  }

  /** The client fails exactly when every source of a key is empty, and otherwise uses the chain's key. */
  lemma ClientFailsIffNoKey(settingsKey: string, geminiEnv: string, apiEnv: string)
    ensures var r := CreateAIClient(settingsKey, geminiEnv, apiEnv);
      && (r.KeyMissing? <==> settingsKey == "" && geminiEnv == "" && apiEnv == "")
      && (r.KeyMissing? ==> r.message == MissingKeyError)
      && (r.Client? ==> r.apiKey != "" && r.apiKey == GetApiKey(settingsKey, geminiEnv, apiEnv))
  {
  }

  // ---------------------------------------------------------- tool schema

  /** One declared function: its name, its parameter names, the required ones and the status enum, if any. */
  datatype ToolDecl = ToolDecl(name: string, properties: seq<string>, required: seq<string>, statusValues: seq<string>)

  const Statuses := ["Applied", "Interviewing", "Rejected", "Offer", "Ghosted"]

  const JobTrackingTools := [
    ToolDecl(SaveTool, ["company", "role", "source", "dateApplied", "timeApplied", "status"],
             ["company", "role", "source", "dateApplied", "timeApplied", "status"], Statuses),
    ToolDecl(ListTool, [], [], []),
    ToolDecl(UpdateTool, ["company", "status"], ["company", "status"], Statuses),
    ToolDecl(DeleteTool, ["company"], ["company"], []),
    ToolDecl(SyncTool, [], [], [])
  ]

  /**
   * Five tools with distinct names, the four the dispatcher handles and the
   * sync tool; every required argument is a declared one, and every tool
   * that takes a status offers the same five values.
   */
  lemma ToolSchemaShape()
    ensures |JobTrackingTools| == 5
    ensures forall i, j :: 0 <= i < j < 5 ==> JobTrackingTools[i].name != JobTrackingTools[j].name
    ensures (set t | t in JobTrackingTools :: t.name) == {SaveTool, ListTool, UpdateTool, DeleteTool, SyncTool}
    ensures forall t, a :: t in JobTrackingTools && a in t.required ==> a in t.properties
    ensures forall t :: t in JobTrackingTools && "status" in t.properties ==> t.statusValues == Statuses
    ensures |Statuses| == 5 && forall i, j :: 0 <= i < j < 5 ==> Statuses[i] != Statuses[j]
  {
    var names := set t | t in JobTrackingTools :: t.name;
    assert JobTrackingTools[0].name in names && JobTrackingTools[1].name in names;
    assert JobTrackingTools[2].name in names && JobTrackingTools[3].name in names;
    assert JobTrackingTools[4].name in names;
  }

  /** save_job_application requires all six record fields, update_job_status company and status, delete only company. */
  lemma RequiredArguments()
    ensures JobTrackingTools[0].name == SaveTool && |JobTrackingTools[0].required| == 6
    ensures JobTrackingTools[2].name == UpdateTool && JobTrackingTools[2].required == ["company", "status"]
    ensures JobTrackingTools[3].name == DeleteTool && JobTrackingTools[3].required == ["company"]
    ensures JobTrackingTools[1].required == [] && JobTrackingTools[4].required == []
  {
  }

  // ------------------------------------------------------------- base64url

  /** The base64url alphabet of RFC 4648 section 5: '-' for '+' and '_' for '/'. */
  function UrlChar(c: char): char
  {
    if c == '+' then '-' else if c == '/' then '_' else c
  }

  /** The unpadded base64url text of a byte sequence, as Gmail sends body data. */
  function UrlEncode(b: seq<Byte>): (r: string)
    ensures |r| == |Base64.Digits(b)|
  {
    var d := Base64.Digits(b);
    seq(|d|, i requires 0 <= i < |d| => UrlChar(d[i]))
  }

  /** The two replace calls: every '-' becomes '+' and every '_' becomes '/'. */
  function Normalize(s: string): (r: string)
    ensures |r| == |s|
    ensures forall i :: 0 <= i < |s| ==>
      r[i] == (if s[i] == '-' then '+' else if s[i] == '_' then '/' else s[i])
  {
    seq(|s|, i requires 0 <= i < |s| => if s[i] == '-' then '+' else if s[i] == '_' then '/' else s[i])
  }

  /** Normalisation undoes the URL alphabet on base 64 digits. */
  lemma NormalizeUrlEncode(b: seq<Byte>)
    ensures Normalize(UrlEncode(b)) == Base64.Digits(b)
  {
    var d := Base64.Digits(b);
    assert forall i :: 0 <= i < |d| ==> Base64.IsAlpha(d[i]);
  }

  /** The '=' characters the padding loop appends to a text of length n. */
  function PadCount(n: nat): (k: nat)
    ensures k <= 3 && (n + k) % 4 == 0
  {
    (4 - n % 4) % 4
  }

  function Equals(k: nat): (r: string)
    ensures |r| == k && forall i :: 0 <= i < k ==> r[i] == '='
  {
    seq(k, _ => '=')
  }

  /** The text decodeBase64Url returns: "" for empty data and wherever atob or decodeURIComponent throws. */
  function DecodeUrl(data: string): string
  {
    if data == "" then ""
    else
      var base64 := Normalize(data) + Equals(PadCount(|data|));
      match Base64.Atob(base64)
      case None => ""
      case Some(binary) =>
        match DecodeURIComponent(PercentEscape(CharCodes(binary)))
        case None => ""
        case Some(text) => text
  }

  /** decodeBase64Url, with its padding loop. */
  method DecodeBase64Url(data: string) returns (text: string)
    ensures text == DecodeUrl(data)
  {
    if data == "" {
      return "";
    }
    var base64 := Normalize(data);
    while |base64| % 4 != 0
      invariant |data| <= |base64| <= |data| + PadCount(|data|)
      invariant base64 == Normalize(data) + Equals(|base64| - |data|)
      decreases PadCount(|data|) - (|base64| - |data|)
    {
      base64 := base64 + "=";
    }
    assert |base64| - |data| == PadCount(|data|);
    var binary := Base64.Atob(base64);
    if binary.None? {
      return "";
    }
    var decoded := DecodeURIComponent(PercentEscape(CharCodes(binary.value)));
    text := if decoded.None? then "" else decoded.value;
  }

  /** The padding loop appends between 0 and 3 '=' and stops at a multiple of four. */
  lemma PaddingBounded(data: string)
    ensures var padded := Normalize(data) + Equals(PadCount(|data|));
      && |data| <= |padded| <= |data| + 3 && |padded| % 4 == 0
      && padded[..|data|] == Normalize(data)
      && (|data| % 4 == 0 ==> padded == Normalize(data))
  {
  }

  /** Padding the unpadded digits restores exactly the '=' that base 64 encoding adds. */
  lemma PadDigits(b: seq<Byte>)
    ensures Base64.Digits(b) + Equals(PadCount(|Base64.Digits(b)|)) == Base64.Encode(b)
  {
    var n := |Base64.Digits(b)|;
    assert PadCount(n) == |Base64.Padding(|b|)|;
    assert Equals(PadCount(n)) == Base64.Padding(|b|);
  }

  /** Gmail's body encoding, base64url of the UTF-8 bytes without padding, decodes back to the text. */
  lemma DecodeUrlOfEncodedText(s: string)
    ensures DecodeUrl(UrlEncode(Utf8Encode(s))) == s
  {
    var b := Utf8Encode(s);
    var data := UrlEncode(b);
    if data == "" {
      assert |b| == 0;
      assert |s| == 0;
    } else {
      NormalizeUrlEncode(b);
      PadDigits(b);
      Base64.AtobOfEncode(b);
      CharCodesOfBinaryString(b);
      TokensOfPercentEscape(b);
      DecodeUtf8Encode(s);
    }
  }

  /** Data that is not valid base 64 after normalisation decodes to "". */
  lemma UndecodableIsEmpty(data: string)
    requires Base64.Atob(Normalize(data) + Equals(PadCount(|data|))).None?
    ensures DecodeUrl(data) == ""
  {
  }

  // ---------------------------------------------------------- email body

  /**
   * A MIME part: its type, its body data ("" when absent) and its sub-parts;
   * hasParts tells whether it has a parts array at all, since a part with an
   * empty array is searched (and may yield its own body data) while a part
   * without one is skipped.
   */
  datatype Part = Part(mimeType: string, bodyData: string, hasParts: bool, parts: seq<Part>)

  predicate IsTextPart(p: Part)
  {
    p.bodyData != "" && (p.mimeType == "text/plain" || p.mimeType == "text/html")
  }

  /** extractEmailBody for a missing payload, or a present one. */
  function ExtractEmailBody(payload: Option<Part>): string
  {
    if payload.None? then "" else BodyOf(payload.value)
  }

  /** A payload's own body data first; else the first usable part; else "". */
  function BodyOf(p: Part): string
    decreases p, 1
  {
    if p.bodyData != "" then DecodeUrl(p.bodyData)
    else if p.hasParts then ScanParts(p, 0)
    else ""
  }

  /**
   * The loop over a payload's parts from index i: a text part with data is
   * decoded and returned; a part with sub-parts is searched and its result
   * returned when non-empty; otherwise the next part is tried.
   */
  function ScanParts(parent: Part, i: nat): string
    decreases parent, 0, |parent.parts| - i
  {
    if i >= |parent.parts| then ""
    else
      var part := parent.parts[i];
      if IsTextPart(part) then DecodeUrl(part.bodyData)
      else if part.hasParts && BodyOf(part) != "" then BodyOf(part)
      else ScanParts(parent, i + 1)
  }

  /** Whether the scan passes over a part: no text part with data, and nothing found inside. */
  predicate Skipped(part: Part)
  {
    !IsTextPart(part) && (!part.hasParts || BodyOf(part) == "")
  }

  /** A payload's direct body wins without looking at its parts. */
  lemma DirectBodyWins(p: Part, hasParts: bool, parts: seq<Part>)
    requires p.bodyData != ""
    ensures BodyOf(p) == BodyOf(p.(hasParts := hasParts, parts := parts)) == DecodeUrl(p.bodyData)
  {
  }

  /** The parts scan returns the body of the first part that yields one. */
  lemma {:induction false} ScanFindsFirst(parent: Part, i: nat, k: nat)
    requires i <= k < |parent.parts|
    requires IsTextPart(parent.parts[k])
    requires forall j :: i <= j < k ==> Skipped(parent.parts[j])
    ensures ScanParts(parent, i) == DecodeUrl(parent.parts[k].bodyData)
    decreases k - i
  {
    if i < k {
      ScanFindsFirst(parent, i + 1, k);
    }
  }

  /** When every part is skipped the scan yields "". */
  lemma {:induction false} ScanFindsNothing(parent: Part, i: nat)
    requires forall j :: i <= j < |parent.parts| ==> Skipped(parent.parts[j])
    ensures ScanParts(parent, i) == ""
    decreases |parent.parts| - i
  {
    if i < |parent.parts| {
      ScanFindsNothing(parent, i + 1);
    }
  }

  /** The part tree below a part, the part itself included. */
  ghost predicate InTree(q: Part, p: Part)
    decreases p
  {
    q == p || (p.hasParts && exists c :: c in p.parts && InTree(q, c))
  }

  /**
   * A non-empty body always comes from one part of the tree: the payload's
   * own data, or a part with data below it.
   */
  lemma {:induction false} BodyComesFromTree(p: Part)
    requires BodyOf(p) != ""
    ensures exists q :: InTree(q, p) && q.bodyData != "" && BodyOf(p) == DecodeUrl(q.bodyData)
    decreases p, 1
  {
    if p.bodyData != "" {
      assert InTree(p, p);
    } else {
      ScanComesFromTree(p, 0);
    }
  }

  lemma {:induction false} ScanComesFromTree(parent: Part, i: nat)
    requires parent.hasParts && ScanParts(parent, i) != ""
    ensures exists q :: InTree(q, parent) && q.bodyData != "" && ScanParts(parent, i) == DecodeUrl(q.bodyData)
    decreases parent, 0, |parent.parts| - i
  {
    var part := parent.parts[i];
    assert part in parent.parts;
    if IsTextPart(part) {
      assert InTree(part, part);
      assert InTree(part, parent);
    } else if part.hasParts && BodyOf(part) != "" {
      BodyComesFromTree(part);
      var q :| InTree(q, part) && q.bodyData != "" && BodyOf(part) == DecodeUrl(q.bodyData);
      assert InTree(q, parent);
    } else {
      ScanComesFromTree(parent, i + 1);
    }
  }

  // ------------------------------------------------------------- headers

  datatype Header = Header(name: string, value: string)

  /** The record built for one fetched message. */
  datatype Email = Email(from: string, subject: string, dateApplied: string, timeApplied: string,
                         snippet: string, body: string, dateTime: string)

  /** headers.find(h => h.name === name)?.value || fallback. */
  function HeaderValue(headers: seq<Header>, name: string, fallback: string): (v: string)
  {
    match FindIndex(headers, (h: Header) => h.name == name)
    case None => fallback
    case Some(i) => if headers[i].value != "" then headers[i].value else fallback
  }

  /** No header before index k has the name. */
  predicate FirstNamed(headers: seq<Header>, name: string, k: nat)
  {
    forall j :: 0 <= j < k && j < |headers| ==> headers[j].name != name
  }

  /**
   * A header lookup takes the first header with that name: its value when
   * non-empty, the fallback when that value is empty or no header has the name.
   */
  lemma HeaderValueFirst(headers: seq<Header>, name: string, fallback: string)
    ensures (forall i :: 0 <= i < |headers| ==> headers[i].name != name) ==>
      HeaderValue(headers, name, fallback) == fallback
    ensures forall k :: 0 <= k < |headers| && headers[k].name == name && FirstNamed(headers, name, k) ==>
      HeaderValue(headers, name, fallback) == (if headers[k].value != "" then headers[k].value else fallback)
  {
    var r := FindIndex(headers, (h: Header) => h.name == name);
    if r.Some? {
      forall k | 0 <= k < |headers| && headers[k].name == name && FirstNamed(headers, name, k)
        ensures k == r.value
      {
        assert !(k < r.value);
      }
    }
  }

  /** The record for a message with these headers, snippet ("" when missing) and payload. */
  function MapEmail(headers: seq<Header>, snippet: string, payload: Option<Part>): (e: Email)
  {
    var body := ExtractEmailBody(payload);
    var received := HeaderValue(headers, "Received", "Unknown");
    Email(HeaderValue(headers, "From", "Unknown"),
          HeaderValue(headers, "Subject", "No Subject"),
          received, received, snippet,
          if body != "" then body else snippet,
          received)
  }

  /** Every field is filled: From and Subject fall back to 'Unknown' and 'No Subject', the three dates to 'Unknown'. */
  lemma MapEmailDefaults(headers: seq<Header>, snippet: string, payload: Option<Part>)
    ensures var e := MapEmail(headers, snippet, payload);
      && e.from != "" && e.subject != "" && e.dateApplied != ""
      && e.dateApplied == e.timeApplied == e.dateTime
      && (e.body == "" <==> ExtractEmailBody(payload) == "" && snippet == "")
      && (ExtractEmailBody(payload) != "" ==> e.body == ExtractEmailBody(payload))
      && (ExtractEmailBody(payload) == "" ==> e.body == snippet)
      && ((forall i :: 0 <= i < |headers| ==> headers[i].name != "Received") ==> e.dateApplied == "Unknown")
  {
    HeaderValueFirst(headers, "Received", "Unknown");
  }

  /** emails.filter(Boolean): the messages that were fetched, in order. */
  function Fetched(results: seq<Option<Email>>): (r: seq<Email>)
    ensures |r| <= |results|
    decreases |results|
  {
    if results == [] then []
    else (if results[0].Some? then [results[0].value] else []) + Fetched(results[1..])
  }

  /** Exactly the fetched messages are kept, in their order. */
  lemma {:induction false} FetchedKeepsExactly(results: seq<Option<Email>>)
    ensures forall e :: e in Fetched(results) <==> Some(e) in results
    ensures (forall i :: 0 <= i < |results| ==> results[i].Some?) ==> |Fetched(results)| == |results|
    decreases |results|
  {
    if results != [] {
      FetchedKeepsExactly(results[1..]);
      assert results == [results[0]] + results[1..];
    }
  }
}
