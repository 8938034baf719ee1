/**
 * The demonstration endpoints of the API: a fixed root message, a fixed
 * health payload, and a message processor that echoes a text with its
 * reversal, its length and its upper-cased form.
 */
module EchoApp {

  /** A JSON object whose values are strings. */
  type Payload = map<string, string>

  datatype MessageResponse = MessageResponse(original: string, reversed: string, length: nat, uppercase: string)

  /** The reversal of s, last character first. */
  function Reverse(s: string): (r: string)
    ensures |r| == |s|
  {
    if s == [] then [] else Reverse(s[1..]) + [s[0]]
  }

  /** Position i of the reversal holds the character at mirrored position n-1-i. */
  lemma {:induction false} ReverseAt(s: string, i: nat)
    requires i < |s|
    ensures Reverse(s)[i] == s[|s| - 1 - i]
  {
    if i < |s| - 1 {
      ReverseAt(s[1..], i);
    }
  }

  /** Reversing twice gives back the text. */
  lemma {:induction false} ReverseInvolution(s: string)
    ensures Reverse(Reverse(s)) == s
  {
    forall i | 0 <= i < |s|
      ensures Reverse(Reverse(s))[i] == s[i]
    {
      ReverseAt(Reverse(s), i);
      ReverseAt(s, |s| - 1 - i);
    }
  }

  predicate IsAsciiLower(c: char) {
    'a' <= c <= 'z'
  }

  /** The ASCII upper-case form of a character; any other character is kept. */
  function UpperChar(c: char): char {
    if IsAsciiLower(c) then (c as int - 32) as char else c
  }

  /** The upper-cased text, character by character. */
  function Upper(s: string): (r: string)
    ensures |r| == |s|
    ensures forall i :: 0 <= i < |s| ==> r[i] == UpperChar(s[i])
  {
    if s == [] then [] else [UpperChar(s[0])] + Upper(s[1..])
  }

  /** Each lower-case letter maps to its capital; every other character is unchanged. */
  lemma {:induction false} UpperCharacters(s: string, i: nat)
    requires i < |s|
    ensures IsAsciiLower(s[i]) ==> 'A' <= Upper(s)[i] <= 'Z' && Upper(s)[i] as int == s[i] as int - 32
    ensures !IsAsciiLower(s[i]) ==> Upper(s)[i] == s[i]
    ensures !IsAsciiLower(Upper(s)[i])
  {
  }

  /** Upper-casing twice is upper-casing once. */
  lemma {:induction false} UpperIdempotent(s: string)
    ensures Upper(Upper(s)) == Upper(s)
  {
  }

  /** The response of the message endpoint. */
  function ProcessMessage(text: string): (r: MessageResponse)
    ensures r.original == text
    ensures |r.reversed| == |text| && forall i :: 0 <= i < |text| ==> r.reversed[i] == text[|text| - 1 - i]
    ensures Reverse(r.reversed) == text
    ensures r.length == |text|
    ensures |r.uppercase| == |text| && forall i :: 0 <= i < |text| ==> r.uppercase[i] == UpperChar(text[i])
  {
    var reversed := Reverse(text);
    forall i | 0 <= i < |text| ensures reversed[i] == text[|text| - 1 - i] {
      ReverseAt(text, i);
    }
    ReverseInvolution(text);
    MessageResponse(text, reversed, |text|, Upper(text))
  }

  /** The root payload: one fixed message. */
  function Root(): (p: Payload)
    ensures p.Keys == {"message"} && p["message"] == "FastAPI is running! Send POST to /process"
  {
    map["message" := "FastAPI is running! Send POST to /process"]
  }

  /** The health payload reports a healthy status and nothing else. */
  function HealthCheck(): (p: Payload)
    ensures p.Keys == {"status"} && p["status"] == "healthy"
  {
    map["status" := "healthy"]
  }
}
