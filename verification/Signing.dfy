/** `wire/signing.py`: the bytes that are signed, and base64url. A byte string is a string of
    characters below 256. */
module Signing {
  import opened Prelude
  import opened Text
  import opened Canonical
  import opened Digests
  import opened RoundTrip
  import opened KeyOrder
  import J = JsonReader

  predicate Bytes(s: string) { forall i :: 0 <= i < |s| ==> s[i] as int < 256 }

  // ---- UTF-8 ----

  function Byte(n: nat): (c: char)
    requires n < 256
    ensures c as int == n
  {
    n as char
  }

  /** The UTF-8 bytes of one scalar value: six bits a byte, most significant first. */
  function Utf8Char(c: char): (r: string)
    ensures 1 <= |r| <= 4 && Bytes(r)
  {
    var n := c as int;
    var p := n / 0x40;
    var q := p / 0x40;
    var last := Byte(0x80 + n % 0x40);
    if n < 0x80 then [c]
    else if n < 0x800 then [Byte(0xC0 + p), last]
    else if n < 0x10000 then [Byte(0xE0 + q), Byte(0x80 + p % 0x40), last]
    else [Byte(0xF0 + q / 0x40), Byte(0x80 + q % 0x40), Byte(0x80 + p % 0x40), last]
  }

  function Utf8(s: string): string {
    if s == [] then [] else Utf8Char(s[0]) + Utf8(s[1..])
  }

  /** RFC 3629: the shortest form, the lead byte telling the length and every other byte a continuation. */
  lemma Utf8Spelled(c: char)
    ensures var n, r := c as int, Utf8Char(c);
      && |r| == (if n < 0x80 then 1 else if n < 0x800 then 2 else if n < 0x10000 then 3 else 4)
      && (|r| == 1 ==> r[0] == c) && (|r| == 2 ==> 0xC0 <= r[0] as int < 0xE0)
      && (|r| == 3 ==> 0xE0 <= r[0] as int < 0xF0) && (|r| == 4 ==> 0xF0 <= r[0] as int < 0xF8)
      && forall i :: 0 < i < |r| ==> 0x80 <= r[i] as int < 0xC0
  {}

  /** Six bits of a continuation byte, after the bits before it. */
  function More(high: int, c: char): int { high * 0x40 + (c as int - 0x80) }

  /** Reads one character back by its first byte: the code point and its length. */
  function ReadUtf8Char(s: string): (int, nat)
    requires s != []
  {
    var a := s[0] as int;
    if a < 0x80 then (a, 1)
    else if a < 0xE0 && |s| >= 2 then (More(a - 0xC0, s[1]), 2)
    else if a < 0xF0 && |s| >= 3 then (More(More(a - 0xE0, s[1]), s[2]), 3)
    else if |s| >= 4 then (More(More(More(a - 0xF0, s[1]), s[2]), s[3]), 4)
    else (-1, 1)
  }

  lemma ReadUtf8(c: char, rest: string)
    ensures ReadUtf8Char(Utf8Char(c) + rest) == (c as int, |Utf8Char(c)|)
  {
    var s := Utf8Char(c);
    assert forall i :: 0 <= i < |s| ==> (s + rest)[i] == s[i];
  }

  /** UTF-8 text has one spelling: equal bytes come from equal strings. */
  lemma {:induction false} Utf8Injective(s: string, t: string)
    requires Utf8(s) == Utf8(t)
    ensures s == t
  {
    if s == [] || t == [] {
      assert s == [] && t == [];
    } else {
      hide Utf8Char, ReadUtf8Char;
      ReadUtf8(s[0], Utf8(s[1..]));
      ReadUtf8(t[0], Utf8(t[1..]));
      var k := |Utf8Char(s[0])|;
      assert Utf8(s)[k..] == Utf8(s[1..]) && Utf8(t)[k..] == Utf8(t[1..]);
      Utf8Injective(s[1..], t[1..]);
      assert s == [s[0]] + s[1..] && t == [t[0]] + t[1..];
    }
  }

  // ---- DSSE pre-authentication encoding ----

  const PAYLOAD_TYPE := "application/vnd.a2a-compliance.subject+json"

  /** `_pae`: "DSSEv1 <len> <type> <len> <payload>", lengths in decimal. */
  function Pae(payloadType: string, payload: string): string {
    "DSSEv1 " + (NatText(|payloadType|) + (" " + (payloadType + (" " + (NatText(|payload|) + (" " + payload))))))
  }

  /** A decimal length and the space after it. */
  function ReadLength(s: string): Option<(nat, string)> {
    var d := J.Span(s);
    if d.0 == "" || (d.0[0] == '0' && |d.0| > 1) || d.1 == [] || d.1[0] != ' ' then None
    else Some((NatValue(d.0), d.1[1..]))
  }

  /** Takes the encoding apart: the lengths say where each part ends. */
  function ReadPae(s: string): Option<(string, string)> {
    if |s| < 7 || s[..7] != "DSSEv1 " then None
    else
      var t :- ReadLength(s[7..]);
      if |t.1| < t.0 + 1 || t.1[t.0] != ' ' then None
      else
        var p :- ReadLength(t.1[t.0 + 1..]);
        if |p.1| != p.0 then None else Some((t.1[..t.0], p.1))
  }

  lemma ReadLengthText(n: nat, rest: string)
    ensures ReadLength(NatText(n) + (" " + rest)) == Some((n, rest))
  {
    hide NatText, NatValue;
    var d := NatText(n);
    SpanDigits(d, " " + rest);
    NatTextValue(n);
    NatTextLead(n);
  }

  lemma NatTextLead(n: nat)
    ensures NatText(n)[0] == '0' ==> |NatText(n)| == 1
  {}

  /** Decoding undoes encoding. */
  lemma ReadPaeUndoes(payloadType: string, payload: string)
    ensures ReadPae(Pae(payloadType, payload)) == Some((payloadType, payload))
  {
    hide NatText, ReadLength;
    var tail := NatText(|payload|) + (" " + payload);
    var s := Pae(payloadType, payload);
    assert s[..7] == "DSSEv1 ";
    assert s[7..] == NatText(|payloadType|) + (" " + (payloadType + (" " + tail)));
    ReadLengthText(|payloadType|, payloadType + (" " + tail));
    var t := payloadType + (" " + tail);
    assert t[|payloadType|] == ' ' && t[..|payloadType|] == payloadType && t[|payloadType| + 1..] == tail;
    ReadLengthText(|payload|, payload);
  }

  /** And what decodes is the encoding of what it decodes to: one spelling each. */
  lemma ReadPaeUnique(s: string)
    requires ReadPae(s).Some?
    ensures Pae(ReadPae(s).value.0, ReadPae(s).value.1) == s
  {
    hide NatText, NatValue, J.Span;
    var t := ReadLength(s[7..]).value;
    var p := ReadLength(t.1[t.0 + 1..]).value;
    ReadLengthSpells(s[7..]);
    ReadLengthSpells(t.1[t.0 + 1..]);
    hide ReadLength;
    assert t.1 == t.1[..t.0] + (" " + t.1[t.0 + 1..]);
    assert s == "DSSEv1 " + s[7..];
  }

  lemma ReadLengthSpells(s: string)
    requires ReadLength(s).Some?
    ensures s == NatText(ReadLength(s).value.0) + (" " + ReadLength(s).value.1)
  {
    hide NatText, NatValue;
    var d := J.Span(s);
    NatTextUnique(d.0);
    assert d.1 == " " + d.1[1..];
  }

  /** `pae_bytes`: what a signature over a dict is computed over. */
  function PaeBytes(items: seq<(string, Json)>): Option<string> {
    var text :- Canon(Obj(Subject(items)));
    Some(Pae(PAYLOAD_TYPE, Utf8(text)))
  }

  /** The signed bytes of two dicts agree only if every field outside `signature` and
      `subject_digest` does. */
  lemma SignedBytesPin(a: seq<(string, Json)>, b: seq<(string, Json)>)
    requires WellFormed(Obj(a)) && WellFormed(Obj(b))
    requires PaeBytes(a).Some? && PaeBytes(a) == PaeBytes(b)
    ensures Printable(Obj(Subject(a))) && Printable(Obj(Subject(b)))
    ensures Meaning(Obj(Subject(a))) == Meaning(Obj(Subject(b)))
  {
    hide Canon, Pae, Utf8, Meaning, Subject;
    SamePayload(Obj(Subject(a)), Obj(Subject(b)));
    SubjectMembers(a);
    SubjectMembers(b);
    CanonInjective(Obj(Subject(a)), Obj(Subject(b)));
  }

  /** They do agree when those fields do, whatever the signature, the claimed digest and the order. */
  lemma SignedBytesStable(a: seq<(string, Json)>, b: seq<(string, Json)>)
    requires KeysDistinct(a) && KeysDistinct(b)
    requires forall x: (string, Json) :: x.0 != "signature" && x.0 != "subject_digest" ==> (x in a <==> x in b)
    ensures PaeBytes(a) == PaeBytes(b)
  {
    var sa, sb := Subject(a), Subject(b);
    hide Canon, SortItems, KeysDistinct;
    SameMembersSorted(sa, sb);
    CanonObject(sa);
    CanonObject(sb);
    CanonMembersParent(SortItems(sa), Obj(sa), Obj(sb));
  }

  lemma SamePayload(a: Json, b: Json)
    requires Canon(a).Some? && Canon(b).Some?
    requires Pae(PAYLOAD_TYPE, Utf8(Canon(a).value)) == Pae(PAYLOAD_TYPE, Utf8(Canon(b).value))
    ensures Canon(a) == Canon(b)
  {
    hide Canon, Pae, Utf8, ReadPae;
    ReadPaeUndoes(PAYLOAD_TYPE, Utf8(Canon(a).value));
    ReadPaeUndoes(PAYLOAD_TYPE, Utf8(Canon(b).value));
    Utf8Injective(Canon(a).value, Canon(b).value);
  }

  // ---- proof of possession ----

  function PopItems(permitId: string, nonce: string): seq<(string, Json)> {
    [("permit_id", Str(permitId)), ("nonce", Str(nonce))]
  }

  /** `pop_pae_bytes`. */
  function PopBytes(permitId: string, nonce: string): Option<string> {
    var text :- Canon(Obj(PopItems(permitId, nonce)));
    Some(Pae(PAYLOAD_TYPE, Utf8(text)))
  }

  /** The text that a proof of possession is over. */
  lemma PopSpelled(permitId: string, nonce: string)
    ensures PopBytes(permitId, nonce) ==
      Some(Pae(PAYLOAD_TYPE, Utf8("{" + Join([MemberText("nonce", EncodeString(nonce)),
                                              MemberText("permit_id", EncodeString(permitId))]) + "}")))
  {
    var a, b := ("permit_id", Str(permitId)), ("nonce", Str(nonce));
    assert PopItems(permitId, nonce) == [a, b];
    assert |"nonce"| == 5 && |"permit_id"| == 9;
    FirstLetterLess("nonce", "permit_id");
    CanonStr(nonce);
    CanonStr(permitId);
    hide Less, EncodeString, Pae, Utf8, MemberText, Join, Canon, SortItems, PopItems;
    CanonTwo(b, a);
  }

  lemma PopMeaning(permitId: string, nonce: string)
    ensures WellFormed(Obj(PopItems(permitId, nonce))) && Printable(Obj(PopItems(permitId, nonce)))
    ensures var v := Meaning(Obj(PopItems(permitId, nonce)));
      && v.VObj? && "permit_id" in v.m && "nonce" in v.m && "type" !in v.m
      && v.m["permit_id"] == J.VStr(permitId) && v.m["nonce"] == J.VStr(nonce)
  {
    assert |"permit_id"| == 9 && |"nonce"| == 5 && |"type"| == 4;
    hide J.MapOf;
    var items := PopItems(permitId, nonce);
    var ms := MeaningItems(items);
    forall i | 0 <= i < 2 ensures ms[i] == (items[i].0, Meaning(items[i].1)) {}
    assert Meaning(Str(permitId)) == J.VStr(permitId) && Meaning(Str(nonce)) == J.VStr(nonce);
    assert ms[0].0 == "permit_id" && ms[1].0 == "nonce";
    MapOfItems(ms);
  }

  /** A proof of possession is for one permit and one nonce: it cannot be presented for another. */
  lemma PopBytesPin(permitId: string, nonce: string, permitId': string, nonce': string)
    requires PopBytes(permitId, nonce) == PopBytes(permitId', nonce')
    ensures permitId == permitId' && nonce == nonce'
  {
    var a, b := Obj(PopItems(permitId, nonce)), Obj(PopItems(permitId', nonce'));
    PopMeaning(permitId, nonce);
    PopMeaning(permitId', nonce');
    CanonSome(a);
    CanonSome(b);
    hide Canon, Pae, Utf8, Meaning, PopItems;
    SamePayload(a, b);
    CanonInjective(a, b);
    var m, n := Meaning(a).m, Meaning(b).m;
    assert m["permit_id"] == n["permit_id"] && m["nonce"] == n["nonce"];
  }

  // ---- everything that is signed ----

  /** What is signed, all under one payload type: wire objects, control envelopes, pinned governance
      blocks and proofs of possession. A wire object is any dict with a `type`; an envelope is given by
      the values of its fields, with the signature as in the dict that is verified. */
  datatype Signable =
    | WireObject(items: seq<(string, Json)>)
    | Envelope(values: seq<Json>)
    | GovernancePin(digest: string, keyId: string, identity: string)
    | Possession(permitId: string, nonce: string)

  const ENVELOPE_FIELDS: seq<string> :=
    ["protocol", "id", "correlates", "ts", "from", "to", "verb", "body", "authority", "grounding", "enforcement",
     "nonce", "expires_at", "key_id", "signature"]

  function ItemsOf(s: Signable): seq<(string, Json)> {
    match s
    case WireObject(items) => items
    case Envelope(values) =>
      var n := if |values| < |ENVELOPE_FIELDS| then |values| else |ENVELOPE_FIELDS|;
      seq(n, i requires 0 <= i < n => (ENVELOPE_FIELDS[i], values[i]))
    case GovernancePin(digest, keyId, identity) =>
      [("governance_block_digest", Str(digest)), ("signer_key_id", Str(keyId)), ("signer_identity", Str(identity))]
    case Possession(permitId, nonce) => PopItems(permitId, nonce)
  }

  predicate HasKey(items: seq<(string, Json)>, k: string) { exists i :: 0 <= i < |items| && items[i].0 == k }

  ghost predicate Proper(s: Signable) {
    && WellFormed(Obj(ItemsOf(s)))
    && (s.WireObject? ==> HasKey(s.items, "type"))
    && (s.Envelope? ==> |s.values| == |ENVELOPE_FIELDS|)
  }

  /** A key only this kind has, of the kinds from this one on. */
  function Tell(s: Signable): string {
    match s
    case WireObject(_) => "type"
    case Envelope(_) => "verb"
    case GovernancePin(_, _, _) => "governance_block_digest"
    case Possession(_, _) => "permit_id"
  }

  function SignedText(s: Signable): Option<string> { PaeBytes(ItemsOf(s)) }

  /** Possession bytes are computed without dropping fields, and there are none to drop. */
  lemma PopIsPae(permitId: string, nonce: string)
    ensures SignedText(Possession(permitId, nonce)) == PopBytes(permitId, nonce)
  {
    assert |"permit_id"| == 9 && |"nonce"| == 5 && |"signature"| == 9 && |"subject_digest"| == 14;
    assert "permit_id"[0] != "signature"[0];
    var items := PopItems(permitId, nonce);
    assert items[1..] == [("nonce", Str(nonce))] && items[1..][1..] == [];
    assert Subject(items[1..]) == items[1..];
    assert Subject(items) == items;
  }

  /** One signed text has one set of keys, outside the two that are not signed, and one text value
      under each. */
  lemma SameTextSameKey(a: seq<(string, Json)>, b: seq<(string, Json)>, i: nat) returns (j: nat)
    requires WellFormed(Obj(a)) && WellFormed(Obj(b)) && PaeBytes(a).Some? && PaeBytes(a) == PaeBytes(b)
    requires i < |a| && a[i].0 != "signature" && a[i].0 != "subject_digest"
    ensures j < |b| && b[j].0 == a[i].0 && (a[i].1.Str? && b[j].1.Str? ==> b[j].1 == a[i].1)
  {
    SignedBytesPin(a, b);
    SubjectMembers(a);
    SubjectMembers(b);
    var x, y := Subject(a), Subject(b);
    assert a[i] in x;
    hide Meaning, PaeBytes, WellFormed;
    var k :| 0 <= k < |x| && x[k] == a[i];
    var l := SameMeaningSameKey(x, y, k);
    assert y[l] in b;
    j :| 0 <= j < |b| && b[j] == y[l];
    if a[i].1.Str? && b[j].1.Str? { StrMeaning(b[j].1, a[i].1); }
  }

  lemma StrMeaning(a: Json, b: Json)
    requires a.Str? && b.Str? && Printable(a) && Printable(b) && Meaning(a) == Meaning(b)
    ensures a == b
  {}

  function Rank(s: Signable): nat {
    if s.WireObject? then 0 else if s.Envelope? then 1 else if s.GovernancePin? then 2 else 3
  }

  /** A signed field that tells no dict with a `type` and no envelope. */
  predicate PlainName(k: string) { k != "type" && k != "verb" && Signed(k) }

  lemma NamesTell()
    ensures forall i :: 0 <= i < |ENVELOPE_FIELDS| ==> ENVELOPE_FIELDS[i] != "type"
    ensures PlainName("governance_block_digest") && PlainName("signer_key_id") && PlainName("signer_identity")
    ensures PlainName("permit_id") && PlainName("nonce")
    ensures "governance_block_digest" != "permit_id" && "governance_block_digest" != "nonce"
    ensures Signed("type") && Signed("verb")
  {
    var lengths := [8, 2, 10, 2, 4, 2, 4, 4, 9, 9, 11, 5, 10, 6, 9];
    assert forall i :: 0 <= i < |ENVELOPE_FIELDS| ==> |ENVELOPE_FIELDS[i]| == lengths[i];
    assert "from"[1] == 'r' && "verb"[1] == 'e' && "body"[1] == 'o' && "type"[1] == 'y';
    assert |"governance_block_digest"| == 23 && |"signer_key_id"| == 13 && |"signer_identity"| == 15;
    assert |"permit_id"| == 9 && |"nonce"| == 5 && |"signature"| == 9 && |"subject_digest"| == 14;
    assert "permit_id"[0] != "signature"[0];
  }

  lemma HasTell(s: Signable) returns (i: nat)
    requires Proper(s)
    ensures i < |ItemsOf(s)| && ItemsOf(s)[i].0 == Tell(s)
  {
    match s
    case WireObject(items) => i :| 0 <= i < |items| && items[i].0 == "type";
    case Envelope(_) => i := 6;
    case GovernancePin(_, _, _) => i := 0;
    case Possession(_, _) => i := 0;
  }

  lemma LacksTell(s: Signable, t: Signable)
    requires Proper(t) && Rank(s) < Rank(t)
    ensures !HasKey(ItemsOf(t), Tell(s))
  {
    NamesTell();
    hide WellFormed;
  }

  lemma TextApart(s: Signable, t: Signable)
    requires Proper(s) && Proper(t) && Rank(s) < Rank(t) && SignedText(s).Some?
    ensures SignedText(s) != SignedText(t)
  {
    NamesTell();
    LacksTell(s, t);
    var i := HasTell(s);
    hide PaeBytes, WellFormed, ItemsOf;
    if SignedText(s) == SignedText(t) {
      var j := SameTextSameKey(ItemsOf(s), ItemsOf(t), i);
    }
  }

  /** No signature over one kind of thing passes for one over another kind, though all four are
      signed under one payload type; and of a pin or a possession the text pins every field. */
  lemma SignedTextsApart(s: Signable, t: Signable)
    requires Proper(s) && Proper(t) && SignedText(s).Some? && SignedText(s) == SignedText(t)
    ensures Rank(s) == Rank(t)
    ensures s.GovernancePin? || s.Possession? ==> s == t
  {
    hide PaeBytes, WellFormed, ItemsOf, HasKey;
    if Rank(s) < Rank(t) { TextApart(s, t); }
    if Rank(t) < Rank(s) { TextApart(t, s); }
    if s.GovernancePin? { PinFields(s, t); }
    if s.Possession? {
      PopIsPae(s.permitId, s.nonce);
      PopIsPae(t.permitId, t.nonce);
      PopBytesPin(s.permitId, s.nonce, t.permitId, t.nonce);
    }
  }

  lemma PinFields(s: Signable, t: Signable)
    requires Proper(s) && Proper(t) && SignedText(s).Some? && SignedText(s) == SignedText(t) && s.GovernancePin?
    requires t.GovernancePin?
    ensures s == t
  {
    var a, b := ItemsOf(s), ItemsOf(t);
    hide PaeBytes, WellFormed;
    NamesTell();
    assert |"governance_block_digest"| == 23 && |"signer_key_id"| == 13 && |"signer_identity"| == 15;
    forall i | 0 <= i < 3 ensures a[i] == b[i] {
      var j := SameTextSameKey(a, b, i);
    }
    assert a[0].1 == Str(s.digest) && a[1].1 == Str(s.keyId) && a[2].1 == Str(s.identity);
    assert b[0].1 == Str(t.digest) && b[1].1 == Str(t.keyId) && b[2].1 == Str(t.identity);
  }

  // ---- base64url (section 5 of RFC 4648) ----

  type Sextet = n: int | 0 <= n < 64

  function Char64(n: Sextet): (c: char)
    ensures c != '=' && Value64(c) == Some(n)
  {
    if n < 26 then (65 + n) as char
    else if n < 52 then (71 + n) as char
    else if n < 62 then (n - 4) as char
    else if n == 62 then '-'
    else '_'
  }

  /** Table 2 of RFC 4648: the capitals, the small letters and the digits, each in order, and the two
      characters of the URL-safe alphabet. */
  lemma Char64Spelled(n: Sextet)
    ensures Char64(0) == 'A' && Char64(26) == 'a' && Char64(52) == '0' && Char64(62) == '-' && Char64(63) == '_'
    ensures n < 61 && n != 25 && n != 51 ==> Char64(n + 1) as int == Char64(n) as int + 1
  {}

  function Value64(c: char): Option<Sextet> {
    if 'A' <= c <= 'Z' then Some(c as int - 65)
    else if 'a' <= c <= 'z' then Some(c as int - 71)
    else if '0' <= c <= '9' then Some(c as int + 4)
    else if c == '-' then Some(62)
    else if c == '_' then Some(63)
    else None
  }

  /** Four characters for three bytes. */
  function Group(x: char, y: char, z: char): (g: string)
    requires x as int < 256 && y as int < 256 && z as int < 256
    ensures |g| == 4 && g[3] != '='
  {
    var a, b, c := x as int, y as int, z as int;
    [Char64(a / 4), Char64(a % 4 * 16 + b / 16), Char64(b % 16 * 4 + c / 64), Char64(c % 64)]
  }

  /** `urlsafe_b64encode`: three bytes become four characters; the last group is padded with '='. */
  function Padded(s: string): string
    requires Bytes(s)
  {
    if s == [] then []
    else if |s| == 1 then
      var a := s[0] as int;
      [Char64(a / 4), Char64(a % 4 * 16), '=', '=']
    else if |s| == 2 then
      var a, b := s[0] as int, s[1] as int;
      [Char64(a / 4), Char64(a % 4 * 16 + b / 16), Char64(b % 16 * 4), '=']
    else
      Group(s[0], s[1], s[2]) + Padded(s[3..])
  }

  /** `rstrip("=")`. */
  function StripPad(s: string): string {
    if s != [] && s[|s| - 1] == '=' then StripPad(s[..|s| - 1]) else s
  }

  /** `_b64url_encode`. */
  function Encode64(s: string): string
    requires Bytes(s)
  {
    StripPad(Padded(s))
  }

  /** The padding `_b64url_decode` restores: `"=" * (-len(text) % 4)`. */
  function Repad(s: string): string {
    s + if |s| % 4 == 0 then "" else if |s| % 4 == 1 then "===" else if |s| % 4 == 2 then "==" else "="
  }

  // The three bytes of a group, from its four sextets.
  function Byte1(a: Sextet, b: Sextet): (c: char)
    ensures c as int == a * 4 + b / 16
  {
    Byte(a * 4 + b / 16)
  }

  function Byte2(b: Sextet, c: Sextet): (r: char)
    ensures r as int == b % 16 * 16 + c / 4
  {
    Byte(b % 16 * 16 + c / 4)
  }

  function Byte3(c: Sextet, d: Sextet): (r: char)
    ensures r as int == c % 4 * 64 + d
  {
    Byte(c % 4 * 64 + d)
  }

  /** Decoding of padded text over the alphabet. */
  function DecodePadded(s: string): Option<string>
    decreases |s|
  {
    if s == [] then Some([])
    else if |s| < 4 then None
    else
      var a :- Value64(s[0]);
      var b :- Value64(s[1]);
      if |s| == 4 && s[3] == '=' then
        if s[2] == '=' then Some([Byte1(a, b)])
        else
          var c :- Value64(s[2]);
          Some([Byte1(a, b), Byte2(b, c)])
      else
        var c :- Value64(s[2]);
        var d :- Value64(s[3]);
        var rest :- DecodePadded(s[4..]);
        Some([Byte1(a, b), Byte2(b, c), Byte3(c, d)] + rest)
  }

  /** `_b64url_decode`. */
  function Decode64(s: string): Option<string> { DecodePadded(Repad(s)) }

  lemma StripOne(x: char, y: char)
    requires x != '=' && y != '='
    ensures StripPad([x, y, '=', '=']) == [x, y]
  {
    var p := [x, y, '=', '='];
    assert p[..3] == [x, y, '='] && p[..3][..2] == [x, y];
    assert StripPad([x, y]) == [x, y];
  }

  lemma StripTwo(x: char, y: char, z: char)
    requires x != '=' && y != '=' && z != '='
    ensures StripPad([x, y, z, '=']) == [x, y, z]
  {
    var p := [x, y, z, '='];
    assert p[..3] == [x, y, z];
    assert StripPad([x, y, z]) == [x, y, z];
  }

  lemma RepadGroup(g: string, s: string)
    requires |g| == 4
    ensures Repad(g + s) == g + Repad(s)
  {
    assert |g + s| % 4 == |s| % 4;
    assert forall pad: string :: (g + s) + pad == g + (s + pad);
  }

  /** Stripping stops before a prefix that does not end in padding. */
  lemma {:induction false} StripSuffix(prefix: string, s: string)
    requires prefix != [] && prefix[|prefix| - 1] != '='
    ensures StripPad(prefix + s) == prefix + StripPad(s)
    decreases |s|
  {
    if s == [] {
      assert prefix + s == prefix;
    } else {
      assert (prefix + s)[..|prefix + s| - 1] == prefix + s[..|s| - 1];
      StripSuffix(prefix, s[..|s| - 1]);
    }
  }

  // ---- which texts decode to a byte string ----

  predicate Alphabet(x: string) { forall i :: 0 <= i < |x| ==> Value64(x[i]).Some? }

  /** The encoding without the detour through padding. */
  function Plain(s: string): string
    requires Bytes(s)
  {
    if s == [] then []
    else if |s| == 1 then [Char64(s[0] as int / 4), Char64(s[0] as int % 4 * 16)]
    else if |s| == 2 then
      [Char64(s[0] as int / 4), Char64(s[0] as int % 4 * 16 + s[1] as int / 16), Char64(s[1] as int % 16 * 4)]
    else Group(s[0], s[1], s[2]) + Plain(s[3..])
  }

  lemma {:induction false} EncodeIsPlain(s: string)
    requires Bytes(s)
    ensures Encode64(s) == Plain(s)
    decreases |s|
  {
    hide Char64, Value64;
    if s == [] {
    } else if |s| == 1 {
      StripOne(Padded(s)[0], Padded(s)[1]);
    } else if |s| == 2 {
      StripTwo(Padded(s)[0], Padded(s)[1], Padded(s)[2]);
    } else {
      EncodeIsPlain(s[3..]);
      var g := Group(s[0], s[1], s[2]);
      assert Padded(s) == g + Padded(s[3..]);
      hide StripPad, Padded, Group;
      StripSuffix(g, Padded(s[3..]));
    }
  }

  /** The decoding of a text over the alphabet, without the detour through padding. */
  function ReadPlain64(x: string): Option<string>
    requires Alphabet(x)
  {
    if x == [] then Some([])
    else if |x| == 1 then None
    else
      var a, b := Value64(x[0]).value, Value64(x[1]).value;
      if |x| == 2 then Some([Byte1(a, b)])
      else
        var c := Value64(x[2]).value;
        if |x| == 3 then Some([Byte1(a, b), Byte2(b, c)])
        else
          var d := Value64(x[3]).value;
          var rest :- ReadPlain64(x[4..]);
          Some([Byte1(a, b), Byte2(b, c), Byte3(c, d)] + rest)
  }

  /** The last, padded group. */
  lemma DecodeLast(p: string)
    requires |p| == 4 && Value64(p[0]).Some? && p[3] == '='
    ensures p[1] == '=' ==> DecodePadded(p).None?
    ensures Value64(p[1]).Some? && p[2] == '=' ==>
      DecodePadded(p) == Some([Byte1(Value64(p[0]).value, Value64(p[1]).value)])
    ensures Value64(p[1]).Some? && Value64(p[2]).Some? && p[2] != '=' ==>
      DecodePadded(p) == Some([Byte1(Value64(p[0]).value, Value64(p[1]).value),
                               Byte2(Value64(p[1]).value, Value64(p[2]).value)])
  {
    assert Value64('=').None?;
    hide Value64, Byte1, Byte2, Byte3;
  }

  lemma RepadShort(x: string)
    requires 0 < |x| < 4
    ensures var p := Repad(x);
      |p| == 4 && p[0] == x[0] && p[3] == '=' && (|x| > 1 ==> p[1] == x[1]) && (|x| > 2 ==> p[2] == x[2])
    ensures |x| <= 2 ==> Repad(x)[2] == '='
    ensures |x| == 1 ==> Repad(x)[1] == '='
  {}

  lemma ReadShort(x: string)
    requires Alphabet(x) && 0 < |x| < 4
    ensures |x| == 1 ==> ReadPlain64(x).None?
    ensures |x| == 2 ==> ReadPlain64(x) == Some([Byte1(Value64(x[0]).value, Value64(x[1]).value)])
    ensures |x| == 3 ==>
      ReadPlain64(x) == Some([Byte1(Value64(x[0]).value, Value64(x[1]).value),
                              Byte2(Value64(x[1]).value, Value64(x[2]).value)])
  {
    hide Value64, Byte1, Byte2, Byte3;
  }

  lemma DecodeShort(x: string)
    requires Alphabet(x) && |x| < 4
    ensures Decode64(x) == ReadPlain64(x)
  {
    hide Value64, Byte1, Byte2, Byte3, DecodePadded;
    if x == [] {
      DecodeNothing();
      assert Repad(x) == [];
    } else {
      NoPadInAlphabet(x);
      RepadShort(x);
      ReadShort(x);
      hide Repad, ReadPlain64;
      DecodeLast(Repad(x));
    }
  }

  lemma DecodeNothing()
    ensures DecodePadded([]) == Some([])
  {}

  lemma {:induction false} DecodeIsPlain(x: string)
    requires Alphabet(x)
    ensures Decode64(x) == ReadPlain64(x)
    decreases |x|
  {
    hide Value64;
    if |x| < 4 {
      DecodeShort(x);
    } else {
      DecodeIsPlain(x[4..]);
      DecodeGroup(x);
    }
  }

  lemma DecodeGroup(x: string)
    requires Alphabet(x) && |x| >= 4 && Decode64(x[4..]) == ReadPlain64(x[4..])
    ensures Decode64(x) == ReadPlain64(x)
  {
    NoPadInAlphabet(x);
    RepadLonger(x);
    RepadGroup(x[..4], x[4..]);
    assert x == x[..4] + x[4..];
    hide Value64, Repad, Byte1, Byte2, Byte3;
    var p := Repad(x);
    assert p[4..] == Repad(x[4..]);
    assert p[0] == x[0] && p[1] == x[1] && p[2] == x[2] && p[3] == x[3];
  }

  lemma RepadLonger(x: string)
    ensures |Repad(x)| >= |x| && Repad(x)[..|x|] == x
  {}

  lemma NoPadInAlphabet(x: string)
    requires Alphabet(x)
    ensures forall i :: 0 <= i < |x| ==> x[i] != '='
    ensures Value64('=').None?
  {}

  /** The bits of the last character that decoding uses: all of a full group's, four of six after
      two bytes, two of six after one. */
  function UsedBits(length: nat, v: Sextet): int {
    if length % 4 == 2 then v / 16 else if length % 4 == 3 then v / 4 else v
  }

  /** One text up to the spare bits of its last character. */
  predicate SameButSpare(x: string, y: string)
    requires Alphabet(x) && Alphabet(y)
  {
    |x| == |y| && (x != "" ==>
      x[..|x| - 1] == y[..|y| - 1]
      && UsedBits(|x|, Value64(x[|x| - 1]).value) == UsedBits(|x|, Value64(y[|y| - 1]).value))
  }

  lemma {:induction false} PlainAlphabet(s: string)
    requires Bytes(s)
    ensures Alphabet(Plain(s))
  {
    if |s| > 2 {
      PlainAlphabet(s[3..]);
      var g, rest := Group(s[0], s[1], s[2]), Plain(s[3..]);
      assert forall i :: 0 <= i < 4 ==> Value64(g[i]).Some?;
      hide Value64, Char64, Group;
      assert Plain(s) == g + rest;
    }
  }

  lemma CharBack(c: char)
    requires Value64(c).Some?
    ensures Char64(Value64(c).value) == c
  {}

  /** Three bytes are spelled by exactly one group of four characters. */
  lemma GroupExactly(u: string, a: char, b: char, c: char)
    requires |u| == 4 && Alphabet(u) && a as int < 256 && b as int < 256 && c as int < 256
    ensures var p, q, r, t := Value64(u[0]).value, Value64(u[1]).value, Value64(u[2]).value, Value64(u[3]).value;
      u == Group(a, b, c) <==>
        p * 4 + q / 16 == a as int && q % 16 * 16 + r / 4 == b as int && r % 4 * 64 + t == c as int
  {
    CharBack(u[0]);
    CharBack(u[1]);
    CharBack(u[2]);
    CharBack(u[3]);
    hide Char64, Value64;
    var p, q, r, t := Value64(u[0]).value, Value64(u[1]).value, Value64(u[2]).value, Value64(u[3]).value;
    SextetsExactly(p, q, r, t, a as int, b as int, c as int);
    var g := Group(a, b, c);
    assert u == [u[0], u[1], u[2], u[3]];
    assert g == [Char64(a as int / 4), Char64(a as int % 4 * 16 + b as int / 16),
                 Char64(b as int % 16 * 4 + c as int / 64), Char64(c as int % 64)];
  }

  lemma SextetsExactly(p: Sextet, q: Sextet, r: Sextet, t: Sextet, a: int, b: int, c: int)
    requires 0 <= a < 256 && 0 <= b < 256 && 0 <= c < 256
    ensures p * 4 + q / 16 == a && q % 16 * 16 + r / 4 == b && r % 4 * 64 + t == c <==>
      p == a / 4 && q == a % 4 * 16 + b / 16 && r == b % 16 * 4 + c / 64 && t == c % 64
  {}

  /** Over the alphabet, exactly these texts decode to `s`: its encoding, up to the spare bits of the
      last character. */
  lemma SpellingsExactly(x: string, s: string)
    requires Alphabet(x) && Bytes(s)
    ensures Alphabet(Encode64(s))
    ensures Decode64(x) == Some(s) <==> SameButSpare(x, Encode64(s))
  {
    hide Decode64, Encode64, SameButSpare;
    EncodeIsPlain(s);
    PlainAlphabet(s);
    DecodeIsPlain(x);
    PlainExactly(x, s);
  }

  lemma {:induction false} PlainExactly(x: string, s: string)
    requires Alphabet(x) && Bytes(s) && Alphabet(Plain(s))
    ensures ReadPlain64(x) == Some(s) <==> SameButSpare(x, Plain(s))
    decreases |s|
  {
    if |s| <= 2 {
      ShortExactly(x, s);
    } else if |x| <= 3 {
      Lengths(x, s);
    } else {
      PlainAlphabet(s[3..]);
      PlainExactly(x[4..], s[3..]);
      GroupStep(x, s);
    }
  }

  /** A first group on each side can be taken off. */
  lemma GroupStep(x: string, s: string)
    requires Alphabet(x) && Bytes(s) && Alphabet(Plain(s)) && |x| >= 4 && |s| >= 3 && Alphabet(Plain(s[3..]))
    ensures ReadPlain64(x) == Some(s) <==> ReadPlain64(x[4..]) == Some(s[3..]) && x[..4] == Group(s[0], s[1], s[2])
    ensures SameButSpare(x, Plain(s)) <==> SameButSpare(x[4..], Plain(s[3..])) && x[..4] == Group(s[0], s[1], s[2])
  {
    var g := Group(s[0], s[1], s[2]);
    assert Plain(s) == g + Plain(s[3..]);
    assert Alphabet(g) by { assert forall i :: 0 <= i < 4 ==> Plain(s)[i] == g[i]; }
    assert x == x[..4] + x[4..];
    hide Plain, SameButSpare, Group, Value64, ReadPlain64;
    GroupExactly(x[..4], s[0], s[1], s[2]);
    ReadGroup(x, s);
    SpareGroup(x[..4], x[4..], g, Plain(s[3..]));
  }

  lemma ReadGroup(x: string, s: string)
    requires Alphabet(x) && |x| >= 4 && |s| >= 3
    ensures ReadPlain64(x) == Some(s) <==>
      var p, q, r, t := Value64(x[0]).value, Value64(x[1]).value, Value64(x[2]).value, Value64(x[3]).value;
      ReadPlain64(x[4..]) == Some(s[3..])
        && p * 4 + q / 16 == s[0] as int && q % 16 * 16 + r / 4 == s[1] as int && r % 4 * 64 + t == s[2] as int
  {
    hide Value64;
    assert s == [s[0], s[1], s[2]] + s[3..];
  }

  lemma SpareGroup(g: string, x: string, h: string, y: string)
    requires |g| == |h| == 4 && Alphabet(g) && Alphabet(h) && Alphabet(x) && Alphabet(y)
    ensures Alphabet(g + x) && Alphabet(h + y)
    ensures SameButSpare(g + x, h + y) <==> g == h && SameButSpare(x, y)
  {
    hide Value64;
    var u, v := g + x, h + y;
    if |x| == |y| {
      assert |u| % 4 == |x| % 4;
      if x == "" {
        assert u == g && v == h;
        FullGroup(g, h);
      } else {
        assert u[..|u| - 1] == g + x[..|x| - 1] && v[..|v| - 1] == h + y[..|y| - 1];
        assert u[|u| - 1] == x[|x| - 1] && v[|v| - 1] == y[|y| - 1];
        SplitEqual(g, x[..|x| - 1], h, y[..|y| - 1]);
      }
    }
  }

  lemma SplitEqual(a: string, b: string, c: string, d: string)
    requires |a| == |c|
    ensures a + b == c + d <==> a == c && b == d
  {
    if a + b == c + d {
      assert a == (a + b)[..|a|] && c == (c + d)[..|a|];
      assert b == (a + b)[|a|..] && d == (c + d)[|a|..];
    }
  }

  lemma FullGroup(g: string, h: string)
    requires |g| == |h| == 4 && Alphabet(g) && Alphabet(h)
    ensures SameButSpare(g, h) <==> g == h
  {
    CharBack(g[3]);
    CharBack(h[3]);
    hide Value64, Char64;
    assert g == g[..3] + [g[3]] && h == h[..3] + [h[3]];
  }

  lemma OneExactly(x: string, s: string)
    requires Alphabet(x) && Bytes(s) && |x| == 2 && |s| == 1 && Alphabet(Plain(s))
    ensures ReadPlain64(x) == Some(s) <==> SameButSpare(x, Plain(s))
  {
    CharBack(x[0]);
    var e, p, q, a := Plain(s), Value64(x[0]).value, Value64(x[1]).value, s[0] as int;
    assert Value64(e[1]) == Some(a % 4 * 16) && e[0] == Char64(a / 4);
    hide Char64, Value64;
    SextetsOne(p, q, a);
    assert s == [s[0]] && x[..1] == [x[0]] && e[..1] == [e[0]];
    assert x[0] == e[0] <==> p == a / 4;
  }

  lemma SextetsOne(p: Sextet, q: Sextet, a: int)
    requires 0 <= a < 256
    ensures p * 4 + q / 16 == a <==> p == a / 4 && q / 16 == a % 4 * 16 / 16
  {}

  lemma TwoExactly(x: string, s: string)
    requires Alphabet(x) && Bytes(s) && |x| == 3 && |s| == 2 && Alphabet(Plain(s))
    ensures ReadPlain64(x) == Some(s) <==> SameButSpare(x, Plain(s))
  {
    CharBack(x[0]);
    CharBack(x[1]);
    var e, p, q, r := Plain(s), Value64(x[0]).value, Value64(x[1]).value, Value64(x[2]).value;
    var a, b := s[0] as int, s[1] as int;
    assert Value64(e[2]) == Some(b % 16 * 4) && e[0] == Char64(a / 4) && e[1] == Char64(a % 4 * 16 + b / 16);
    hide Char64, Value64;
    SextetsTwo(p, q, r, a, b);
    assert s == [s[0], s[1]] && x[..2] == [x[0], x[1]] && e[..2] == [e[0], e[1]];
    assert x[0] == e[0] <==> p == a / 4;
    assert x[1] == e[1] <==> q == a % 4 * 16 + b / 16;
  }

  lemma SextetsTwo(p: Sextet, q: Sextet, r: Sextet, a: int, b: int)
    requires 0 <= a < 256 && 0 <= b < 256
    ensures p * 4 + q / 16 == a && q % 16 * 16 + r / 4 == b <==>
      p == a / 4 && q == a % 4 * 16 + b / 16 && r / 4 == b % 16 * 4 / 4
  {}

  /** How long the two sides are. */
  lemma Lengths(x: string, s: string)
    requires Alphabet(x) && Bytes(s)
    ensures |Plain(s)| == if |s| <= 2 then (if s == [] then 0 else |s| + 1) else 4 + |Plain(s[3..])|
    ensures ReadPlain64(x).Some? ==>
      if |x| < 4 then |ReadPlain64(x).value| == (if x == [] then 0 else |x| - 1) else |ReadPlain64(x).value| >= 3
  {
    hide Char64, Value64;
  }

  lemma ShortExactly(x: string, s: string)
    requires Alphabet(x) && Bytes(s) && |s| <= 2 && Alphabet(Plain(s))
    ensures ReadPlain64(x) == Some(s) <==> SameButSpare(x, Plain(s))
  {
    Lengths(x, s);
    if |x| == 2 && |s| == 1 {
      OneExactly(x, s);
    } else if |x| == 3 && |s| == 2 {
      TwoExactly(x, s);
    } else {
      hide Plain, Value64;
      assert |x| == 1 ==> ReadPlain64(x).None?;
    }
  }

  /** Unpadded decoding undoes unpadded encoding, for every byte string. */
  lemma Decode64Undoes(s: string)
    requires Bytes(s)
    ensures Decode64(Encode64(s)) == Some(s)
  {
    hide Decode64, Encode64;
    EncodeIsPlain(s);
    PlainAlphabet(s);
    SpellingsExactly(Encode64(s), s);
  }

  // ---- key thumbprints ----

  function JwkItems(x: string): seq<(string, Json)> {
    [("crv", Str("Ed25519")), ("kty", Str("OKP")), ("x", Str(x))]
  }

  /** A hash of canonical text to bytes. */
  ghost predicate ByteHash(hash: string -> string) { CollisionFree(hash) && forall text :: Bytes(hash(text)) }

  /** `jwk_thumbprint` of an OKP key: the hash of its required members, in base64url. */
  ghost function Thumbprint(hash: string -> string, x: string): Option<string>
    requires ByteHash(hash)
  {
    var text :- Canon(Obj(JwkItems(x)));
    Some(Encode64(hash(text)))
  }

  /** RFC 7638: the thumbprint is over the key's required members in order, and nothing else. */
  lemma JwkSpelled(hash: string -> string, x: string)
    requires ByteHash(hash)
    ensures Thumbprint(hash, x) ==
      Some(Encode64(hash("{" + Join([MemberText("crv", EncodeString("Ed25519")), MemberText("kty", EncodeString("OKP")),
                                     MemberText("x", EncodeString(x))]) + "}")))
  {
    assert |"crv"| == 3 && |"kty"| == 3 && |"x"| == 1;
    FirstLetterLess("crv", "kty");
    FirstLetterLess("kty", "x");
    FirstLetterLess("crv", "x");
    CanonStr("Ed25519");
    CanonStr("OKP");
    CanonStr(x);
    hide Less, EncodeString, MemberText, Join, Encode64, Canon, SortItems;
    CanonThree(("crv", Str("Ed25519")), ("kty", Str("OKP")), ("x", Str(x)));
  }

  /** A thumbprint pins the key's `x` text. */
  lemma ThumbprintPins(hash: string -> string, x: string, y: string)
    requires ByteHash(hash)
    ensures Thumbprint(hash, x).Some?
    ensures Thumbprint(hash, x) == Thumbprint(hash, y) ==> x == y
  {
    JwkMeaning(x);
    JwkMeaning(y);
    CanonSome(Obj(JwkItems(x)));
    CanonSome(Obj(JwkItems(y)));
    hide JwkItems, Canon, Meaning, Encode64;
    if Thumbprint(hash, x) == Thumbprint(hash, y) {
      Decode64Undoes(hash(Canon(Obj(JwkItems(x))).value));
      Decode64Undoes(hash(Canon(Obj(JwkItems(y))).value));
      CanonInjective(Obj(JwkItems(x)), Obj(JwkItems(y)));
      var m, n := Meaning(Obj(JwkItems(x))).m, Meaning(Obj(JwkItems(y))).m;
      assert m["x"] == n["x"];
    }
  }

  lemma JwkMeaning(x: string)
    ensures WellFormed(Obj(JwkItems(x))) && Printable(Obj(JwkItems(x)))
    ensures var v := Meaning(Obj(JwkItems(x))); v.VObj? && "x" in v.m && v.m["x"] == J.VStr(x)
  {
    assert |"crv"| == 3 && |"kty"| == 3 && |"x"| == 1 && "crv"[0] != "kty"[0];
    hide J.MapOf;
    var items := JwkItems(x);
    var ms := MeaningItems(items);
    forall i | 0 <= i < 3 ensures ms[i] == (items[i].0, Meaning(items[i].1)) {}
    assert Meaning(Str(x)) == J.VStr(x) && items[2] == ("x", Str(x));
    assert ms[2].0 == "x";
    MapOfItems(ms);
  }

  /** Every key whose length is no multiple of three (an Ed25519 key has 32 bytes) has a second `x`
      text that decodes to it, and with it a second thumbprint. */
  lemma SecondSpelling(hash: string -> string, s: string) returns (x: string)
    requires ByteHash(hash) && Bytes(s) && |s| % 3 != 0
    ensures Alphabet(x) && Decode64(x) == Some(s) && x != Encode64(s)
    ensures Thumbprint(hash, x) != Thumbprint(hash, Encode64(s))
  {
    hide Decode64, Encode64, Thumbprint, SameButSpare;
    EncodeIsPlain(s);
    PlainAlphabet(s);
    x := Respell(s);
    SpellingsExactly(x, s);
    ThumbprintPins(hash, x, Encode64(s));
  }

  lemma RespellOne(s: string) returns (x: string)
    requires Bytes(s) && |s| == 1 && Alphabet(Plain(s))
    ensures Alphabet(x) && x != Plain(s) && SameButSpare(x, Plain(s))
  {
    var v: int := s[0] as int % 4 * 16;
    x := [Plain(s)[0], Char64(v + 1)];
    assert Value64(Plain(s)[1]) == Some(v) && Value64(x[1]) == Some(v + 1);
    hide Char64, Value64;
    assert x[..1] == Plain(s)[..1];
  }

  lemma RespellTwo(s: string) returns (x: string)
    requires Bytes(s) && |s| == 2 && Alphabet(Plain(s))
    ensures Alphabet(x) && x != Plain(s) && SameButSpare(x, Plain(s))
  {
    var v: int := s[1] as int % 16 * 4;
    x := [Plain(s)[0], Plain(s)[1], Char64(v + 1)];
    assert Value64(Plain(s)[2]) == Some(v) && Value64(x[2]) == Some(v + 1);
    hide Char64, Value64;
    assert x[..2] == Plain(s)[..2];
  }

  /** The encoding with its lowest spare bit set. */
  lemma Respell(s: string) returns (x: string)
    requires Bytes(s) && |s| % 3 != 0 && Alphabet(Plain(s))
    ensures Alphabet(x) && x != Plain(s) && SameButSpare(x, Plain(s))
    decreases |s|
  {
    if |s| == 1 {
      x := RespellOne(s);
    } else if |s| == 2 {
      x := RespellTwo(s);
    } else {
      PlainAlphabet(s[3..]);
      var rest := Respell(s[3..]);
      var g := Group(s[0], s[1], s[2]);
      assert Plain(s) == g + Plain(s[3..]);
      assert Alphabet(g) by { assert forall i :: 0 <= i < 4 ==> Plain(s)[i] == g[i]; }
      x := g + rest;
      hide Group, Value64, Char64, SameButSpare, Plain;
      SpareGroup(g, rest, g, Plain(s[3..]));
      SplitEqual(g, rest, g, Plain(s[3..]));
    }
  }

  ghost predicate OneSpelling(s: string)
    requires Bytes(s)
  {
    forall x :: Alphabet(x) && Decode64(x) == Some(s) ==> x == Encode64(s)
  }

  lemma {:induction false} PlainWhole(s: string)
    requires Bytes(s) && |s| % 3 == 0
    ensures |Plain(s)| % 4 == 0
    decreases |s|
  {
    hide Group;
    if s != [] { PlainWhole(s[3..]); }
  }

  lemma WholeIsSame(x: string, y: string)
    requires Alphabet(x) && Alphabet(y) && SameButSpare(x, y) && |y| % 4 == 0
    ensures x == y
  {
    if x != "" {
      CharBack(x[|x| - 1]);
      CharBack(y[|y| - 1]);
      hide Value64, Char64;
      assert x == x[..|x| - 1] + [x[|x| - 1]] && y == y[..|y| - 1] + [y[|y| - 1]];
    }
  }

  /** Exactly the byte strings whose length is a multiple of three have one spelling. */
  lemma OneSpellingExactly(s: string)
    requires Bytes(s)
    ensures OneSpelling(s) <==> |s| % 3 == 0
  {
    hide Decode64, Encode64, SameButSpare, Plain;
    EncodeIsPlain(s);
    PlainAlphabet(s);
    if |s| % 3 == 0 {
      PlainWhole(s);
      forall x | Alphabet(x) && Decode64(x) == Some(s) ensures x == Encode64(s) {
        SpellingsExactly(x, s);
        WholeIsSame(x, Encode64(s));
      }
    } else {
      var x := Respell(s);
      SpellingsExactly(x, s);
    }
  }
}
