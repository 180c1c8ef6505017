/** The image-part scanner: the handler walks the content parts of the
    model's first candidate and keeps the decoded inline data of the first
    part that carries any. */
module ImageParts {
  import opened JsValues

  type Bytes = seq<bv8>

  /** `inlineData` of a response part: base64 text and its media type. */
  datatype InlineData = InlineData(data: Field, mimeType: Field)

  /** A response part: text, inline data, either or neither. */
  datatype Part = Part(text: Field, inlineData: Option<InlineData>)

  /** `part.inlineData?.data` is truthy: the part has inline data whose text is non-empty. */
  predicate CarriesImage(p: Part) {
    p.inlineData.Some? && Truthy(p.inlineData.value.data)
  }

  function Payload(p: Part): string
    requires CarriesImage(p)
  {
    p.inlineData.value.data.value
  }

  /** Reference definition: the decoded payload of the first part that carries one. */
  function FirstImageData(parts: seq<Part>, decode: string -> Bytes): Option<Bytes> {
    if parts == [] then None
    else if CarriesImage(parts[0]) then Some(decode(Payload(parts[0])))
    else FirstImageData(parts[1..], decode)
  }

  /** The `for ... of` loop with its `break` on the first match; `decode`
      stands for `Buffer.from(data, "base64")`. */
  method ScanParts(parts: seq<Part>, decode: string -> Bytes) returns (finalBuffer: Option<Bytes>)
    ensures finalBuffer == FirstImageData(parts, decode)
  {
    finalBuffer := None;
    var i := 0;
    while i < |parts|
      invariant 0 <= i <= |parts|
      invariant finalBuffer == None
      invariant FirstImageData(parts[i..], decode) == FirstImageData(parts, decode)
    {
      assert parts[i..][0] == parts[i] && parts[i..][1..] == parts[i + 1..];
      if CarriesImage(parts[i]) {
        finalBuffer := Some(decode(Payload(parts[i])));
        break;
      }
      i := i + 1;
    }
  }

  /** The scan finds nothing exactly when no part carries image data. */
  lemma {:induction false} NoImageIff(parts: seq<Part>, decode: string -> Bytes)
    ensures FirstImageData(parts, decode) == None <==> forall j :: 0 <= j < |parts| ==> !CarriesImage(parts[j])
  {
    if parts != [] {
      NoImageIff(parts[1..], decode);
      assert forall j :: 1 <= j < |parts| ==> parts[j] == parts[1..][j - 1];
    }
  }

  /** Part `i` is the first part that carries image data. */
  predicate FirstCarrier(parts: seq<Part>, i: nat)
    requires i < |parts|
  {
    CarriesImage(parts[i]) && forall j :: 0 <= j < i ==> !CarriesImage(parts[j])
  }

  /** If some part carries data, there is a first one. */
  lemma {:induction false} FirstCarrierExists(parts: seq<Part>, j: nat) returns (i: nat)
    requires j < |parts| && CarriesImage(parts[j])
    ensures i <= j && FirstCarrier(parts, i)
  {
    if exists k :: 0 <= k < j && CarriesImage(parts[k]) {
      var k :| 0 <= k < j && CarriesImage(parts[k]);
      i := FirstCarrierExists(parts, k);
    } else {
      i := j;
    }
  }

  /** When part `i` is the first to carry data, the scan returns the
      decoded data of part `i`: earlier parts are skipped. */
  lemma {:induction false} FirstMatchWins(parts: seq<Part>, decode: string -> Bytes, i: nat)
    requires i < |parts| && FirstCarrier(parts, i)
    ensures FirstImageData(parts, decode) == Some(decode(Payload(parts[i])))
  {
    if i > 0 {
      assert !CarriesImage(parts[0]);
      assert forall j :: 0 <= j < i - 1 ==> parts[1..][j] == parts[j + 1];
      FirstMatchWins(parts[1..], decode, i - 1);
    }
  }

  /** Parts after the first match are never inspected: the result on
      `front + back` is the result on `front` whenever that found data. */
  lemma {:induction false} LaterPartsIgnored(front: seq<Part>, back: seq<Part>, decode: string -> Bytes)
    ensures FirstImageData(front + back, decode) ==
      if FirstImageData(front, decode).Some? then FirstImageData(front, decode) else FirstImageData(back, decode)
  {
    if front != [] {
      assert (front + back)[0] == front[0];
      assert (front + back)[1..] == front[1..] + back;
      LaterPartsIgnored(front[1..], back, decode);
    } else {
      assert front + back == back;
    }
  }
}
