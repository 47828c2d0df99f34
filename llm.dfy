/** The tail of the SOAP-note generator that turns the model's reply text into a note:
    strip it, unwrap a Markdown code fence, parse it as JSON, and fall back to a fixed
    error note when anything fails. */
module LlmCleaning {
  import opened Models
  import opened TextUtil

  /** A parsed JSON value. */
  datatype Json =
    | JNull
    | JBool(b: bool)
    | JNumber(n: int)
    | JString(s: string)
    | JArray(items: seq<Json>)
    | JObject(fields: map<string, Json>)

  const Fence: string := "```"
  const JsonFence: string := "```json"
  const ErrorText: string := "Error generating note"

  /** The note returned when reading or parsing the reply fails. */
  const FallbackNote: Json := JObject(map[
    "subjective" := JString(ErrorText),
    "objective" := JString(ErrorText),
    "assessment" := JString(ErrorText),
    "plan" := JString(ErrorText)])

  /** The text handed to the JSON parser: always a piece of the reply, never new text. */
  function CleanResponse(text: string): (r: string)
    ensures IsSlice(r, text)
  {
    var t := Strip(text);
    StripIsSlice(text);
    if StartsWith(t, Fence) then
      var payload := Strip(Split(LastPiece(t, JsonFence), Fence)[0]);
      PayloadIsSlice(t);
      SliceOfSlice(payload, t, text);
      payload
    else t
  }

  /** The result of `generate_soap_note` for a reply whose text is `responseText` (`None`
      when reading the text raises); `loads` is the JSON parser, `None` where it raises. */
  function GenerateSoapNoteResult(responseText: Option<string>, loads: string -> Option<Json>): (r: Json)
    ensures responseText.None? ==> r == FallbackNote
    ensures responseText.Some? ==>
      (loads(CleanResponse(responseText.value)).None? ==> r == FallbackNote)
      && (loads(CleanResponse(responseText.value)).Some? ==> r == loads(CleanResponse(responseText.value)).value)
  {
    if responseText.None? then FallbackNote
    else
      match loads(CleanResponse(responseText.value))
      case None => FallbackNote
      case Some(j) => j
  }

  /** The fallback note has exactly the four SOAP keys, each holding the error text. */
  lemma FallbackShape()
    ensures FallbackNote.JObject?
    ensures FallbackNote.fields.Keys == {"subjective", "objective", "assessment", "plan"}
    ensures forall k | k in FallbackNote.fields :: FallbackNote.fields[k] == JString("Error generating note")
  {
  }

  /** A reply that does not open with a fence is parsed as it is, once stripped. */
  lemma UnfencedIsStripped(text: string)
    requires !StartsWith(Strip(text), Fence)
    ensures CleanResponse(text) == Strip(text)
  {
  }

  lemma ContainsInSlice(s: string, i: nat, j: nat, k: string)
    requires i <= j <= |s| && Contains(s[i..j], k)
    ensures Contains(s, k)
  {
    ContainsInRight(s[..i], s[i..j], k);
    ContainsInLeft(s[..i] + s[i..j], s[j..], k);
    assert s[..i] + s[i..j] + s[j..] == s;
  }

  /** Where the payload of a fenced reply starts: right after the last "```json". */
  function PayloadStart(t: string): nat
  {
    LastPieceIsTail(t, JsonFence);
    |t| - |LastPiece(t, JsonFence)|
  }

  /** Where the payload of a fenced reply ends: at the next "```", or at the end. */
  function PayloadEnd(t: string): nat
  {
    PayloadStart(t) + |Split(LastPiece(t, JsonFence), Fence)[0]|
  }

  lemma PayloadStartFacts(t: string)
    ensures 0 <= PayloadStart(t) <= |t| && t[PayloadStart(t)..] == LastPiece(t, JsonFence)
    ensures Contains(t, JsonFence) ==> 7 <= PayloadStart(t) && OccursAt(t, JsonFence, PayloadStart(t) - 7)
    ensures !Contains(t, JsonFence) ==> PayloadStart(t) == 0
    ensures !Contains(t[PayloadStart(t)..], JsonFence)
  {
    SplitLast(t, JsonFence);
  }

  lemma PayloadEndFacts(t: string)
    ensures PayloadStart(t) <= PayloadEnd(t) <= |t|
    ensures t[PayloadStart(t)..PayloadEnd(t)] == Split(LastPiece(t, JsonFence), Fence)[0]
    ensures PayloadEnd(t) == |t| || OccursAt(t, Fence, PayloadEnd(t))
    ensures !Contains(t[PayloadStart(t)..PayloadEnd(t)], Fence)
    ensures forall q | PayloadStart(t) <= q < PayloadEnd(t) :: !OccursAt(t, Fence, q)
  {
    var l := LastPiece(t, JsonFence);
    var i := PayloadStart(t);
    SplitLast(t, JsonFence);
    assert t[i..] == l;
    var f := Split(l, Fence)[0];
    SplitFirst(l, Fence);
    var j := i + |f|;
    assert t[i..j] == l[..|f|] == f;
    if Contains(l, Fence) {
      assert OccursAt(l, Fence, |f|);
      assert t[j..j + 3] == l[|f|..|f| + 3];
    }
    forall q | i <= q < j ensures !OccursAt(t, Fence, q) {
      if OccursAt(t, Fence, q) {
        OccursFromTail(t, Fence, i, q);
      }
    }
  }

  /** The stripped payload is a piece of the text it was cut from. */
  lemma PayloadIsSlice(t: string)
    ensures IsSlice(Strip(Split(LastPiece(t, JsonFence), Fence)[0]), t)
  {
    PayloadStartFacts(t);
    PayloadEndFacts(t);
    var f := Split(LastPiece(t, JsonFence), Fence)[0];
    assert IsSlice(f, t) by {
      assert f == t[PayloadStart(t)..PayloadEnd(t)];
    }
    StripIsSlice(f);
    SliceOfSlice(Strip(f), f, t);
  }

  /** A fenced reply is cut down to the text after the last "```json" (all of it when there is
      none) and before the first "```" that starts after it, then stripped; that payload holds
      no fence. */
  lemma FencedPayload(text: string)
    requires StartsWith(Strip(text), Fence)
    ensures var t := Strip(text);
      exists i, j | 0 <= i <= j <= |t| ::
        && CleanResponse(text) == Strip(t[i..j])
        && (Contains(t, JsonFence) ==> 7 <= i && OccursAt(t, JsonFence, i - 7))
        && (!Contains(t, JsonFence) ==> i == 0)
        && !Contains(t[i..], JsonFence)
        && (j == |t| || OccursAt(t, Fence, j))
        && (forall q | i <= q < j :: !OccursAt(t, Fence, q))
        && !Contains(t[i..j], Fence)
  {
    var t := Strip(text);
    PayloadStartFacts(t);
    PayloadEndFacts(t);
    var i, j := PayloadStart(t), PayloadEnd(t);
    assert CleanResponse(text) == Strip(t[i..j]);
  }

  /** The payload of a fenced reply holds no fence. */
  lemma FencedPayloadLacksFence(text: string)
    requires StartsWith(Strip(text), Fence)
    ensures !Contains(CleanResponse(text), Fence)
  {
    var t := Strip(text);
    var f := Split(LastPiece(t, JsonFence), Fence)[0];
    SplitFirst(LastPiece(t, JsonFence), Fence);
    var p := Strip(f);
    var a, b :| 0 <= a <= b <= |f| && p == f[a..b];
    if Contains(p, Fence) {
      ContainsInSlice(f, a, b, Fence);
    }
  }

  /** A fenced reply without a "```json" tag yields an empty payload (the text before the
      first fence), which the parser rejects: the result is the fallback note. */
  lemma UntaggedFenceFallsBack(text: string, loads: string -> Option<Json>)
    requires StartsWith(Strip(text), Fence) && !Contains(Strip(text), JsonFence)
    requires loads("").None?
    ensures CleanResponse(text) == ""
    ensures GenerateSoapNoteResult(Some(text), loads) == FallbackNote
  {
    var t := Strip(text);
    SplitLast(t, JsonFence);
    assert LastPiece(t, JsonFence) == t;
    assert OccursAt(t, Fence, 0);
    FindCorrect(t, Fence);
    assert Find(t, Fence) == 0;
    assert Split(t, Fence)[0] == t[..0] == "";
    assert Strip("") == "";
  }

  /** Cleaning is idempotent: a payload is already clean. */
  lemma CleanIdempotent(text: string)
    ensures CleanResponse(CleanResponse(text)) == CleanResponse(text)
  {
    var t := Strip(text);
    StripIdempotent(text);
    if StartsWith(t, Fence) {
      var p := CleanResponse(text);
      FencedPayloadLacksFence(text);
      assert !StartsWith(p, Fence) by {
        if StartsWith(p, Fence) {
          assert OccursAt(p, Fence, 0);
        }
      }
      StripIdempotent(Split(LastPiece(t, JsonFence), Fence)[0]);
    }
  }

  const FencedReply: string := "```json\n{}\n```"
  const FencedBody: string := "\n{}\n```"

  lemma FencedReplyStripped()
    ensures Strip(FencedReply) == FencedReply && StartsWith(FencedReply, Fence)
  {
    assert TrimStart(FencedReply) == FencedReply;
    assert TrimEnd(FencedReply) == FencedReply;
  }

  lemma FencedReplyLastPiece()
    ensures LastPiece(FencedReply, JsonFence) == FencedBody
  {
    var t := FencedReply;
    assert OccursAt(t, JsonFence, 0);
    FindCorrect(t, JsonFence);
    assert t[7..] == FencedBody;
    LastPieceStep(t, JsonFence);
    AbsentChar(FencedBody, JsonFence, 3);
    FindCorrect(FencedBody, JsonFence);
    assert Split(FencedBody, JsonFence) == [FencedBody];
  }

  lemma FencedBodyFirstPiece()
    ensures Split(FencedBody, Fence)[0] == "\n{}\n"
  {
    var b := FencedBody;
    FindCorrect(b, Fence);
    assert OccursAt(b, Fence, 4);
    forall j | 0 <= j < 4 ensures !OccursAt(b, Fence, j) {
      assert b[j..j + 3][0] == b[j] != '`';
    }
    assert Find(b, Fence) == 4;
  }

  lemma TrimStartBracesLine()
    ensures TrimStart("\n{}\n") == "{}\n"
  {
    var x := "\n{}\n";
    assert IsSpace(x[0]) && x[1..] == "{}\n";
    var y := "{}\n";
    assert !IsSpace(y[0]);
  }

  lemma TrimEndBracesLine()
    ensures TrimEnd("{}\n") == "{}"
  {
    var y := "{}\n";
    assert IsSpace(y[2]) && y[..2] == "{}";
    var z := "{}";
    assert !IsSpace(z[1]);
  }

  lemma StripBracesLine()
    ensures Strip("\n{}\n") == "{}"
  {
    TrimStartBracesLine();
    TrimEndBracesLine();
  }

  /** A reply wrapped in a "```json" fence is unwrapped to the JSON text inside. */
  lemma FencedReplyExample()
    ensures CleanResponse(FencedReply) == "{}"
  {
    FencedReplyStripped();
    FencedReplyLastPiece();
    FencedBodyFirstPiece();
    StripBracesLine();
  }
}
