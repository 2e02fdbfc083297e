/**
 The text of an export cursor: an object with its own digest, written as JSON and then as
 unpadded base64url (RFC 4648, section 5).

 JSON, the digest of an object and the parsing of timestamps belong to the runtime's
 libraries and are parameters; the encoding of bytes is defined here.
 */
module CursorCodec {
  import opened Ordering

  type Byte = b: int | 0 <= b < 256

  // ---------- base64url ----------

  function Symbol(v: int): char
    requires 0 <= v < 64
  {
    if v < 26 then 'A' + v as char
    else if v < 52 then 'a' + (v - 26) as char
    else if v < 62 then '0' + (v - 52) as char
    else if v == 62 then '-' else '_'
  }

  /** The decoder maps '-' and '_' onto '+' and '/' first, and so takes either pair. */
  function Value(c: char): Option<int> {
    if 'A' <= c <= 'Z' then Some((c - 'A') as int)
    else if 'a' <= c <= 'z' then Some((c - 'a') as int + 26)
    else if '0' <= c <= '9' then Some((c - '0') as int + 52)
    else if c == '-' || c == '+' then Some(62)
    else if c == '_' || c == '/' then Some(63)
    else None
  }

  function Quad(a: Byte, b: Byte, c: Byte): string {
    [Symbol(a / 4), Symbol(a % 4 * 16 + b / 16), Symbol(b % 16 * 4 + c / 64), Symbol(c % 64)]
  }

  /** The padded encoding, four symbols for three bytes. */
  function Padded(bytes: seq<Byte>): string
    decreases |bytes|
  {
    if bytes == [] then ""
    else if |bytes| == 1 then Quad(bytes[0], 0, 0)[..2] + "=="
    else if |bytes| == 2 then Quad(bytes[0], bytes[1], 0)[..3] + "="
    else Quad(bytes[0], bytes[1], bytes[2]) + Padded(bytes[3..])
  }

  /** Removes every trailing padding sign. */
  function Stripped(text: string): string
    decreases |text|
  {
    if text != "" && text[|text| - 1] == '=' then Stripped(text[..|text| - 1]) else text
  }

  /** Padding up to the next multiple of four. */
  function Repadded(text: string): string {
    text + (if |text| % 4 == 0 then "" else if |text| % 4 == 3 then "=" else if |text| % 4 == 2 then "==" else "===")
  }

  function Values(text: string): Option<seq<int>>
    decreases |text|
  {
    if text == "" then Some([])
    else
      var first, rest := Value(text[0]), Values(text[1..]);
      if first == None || rest == None then None else Some([first.value] + rest.value)
  }

  /** The strict decoder: whole quads, padding only at the very end. */
  function Unpadded(text: string): Option<seq<int>>
    decreases |text|
  {
    if text == "" then Some([])
    else if |text| < 4 then None
    else if |text| == 4 && text[2..] == "==" then
      match Values(text[..2]) case None => None case Some(v) => LastOne(v)
    else if |text| == 4 && text[3] == '=' then
      match Values(text[..3]) case None => None case Some(v) => LastTwo(v)
    else
      var v, rest := Values(text[..4]), Unpadded(text[4..]);
      if v == None || |v.value| != 4 || rest == None then None else Some(Triple(v.value) + rest.value)
  }

  function LastOne(v: seq<int>): Option<seq<int>> {
    if |v| != 2 then None else Some([v[0] * 4 + v[1] / 16])
  }

  function LastTwo(v: seq<int>): Option<seq<int>> {
    if |v| != 3 then None else Some([v[0] * 4 + v[1] / 16, v[1] % 16 * 16 + v[2] / 4])
  }

  function Triple(v: seq<int>): seq<int>
    requires |v| == 4
  {
    [v[0] * 4 + v[1] / 16, v[1] % 16 * 16 + v[2] / 4, v[2] % 4 * 64 + v[3]]
  }

  lemma {:induction false} SymbolRoundTrip(v: int)
    requires 0 <= v < 64
    ensures Value(Symbol(v)) == Some(v) && Symbol(v) != '='
  {
  }

  lemma {:induction false} ValuesOf(text: string, v: seq<int>)
    requires |text| == |v| <= 4 && forall i | 0 <= i < |v| :: 0 <= v[i] < 64 && text[i] == Symbol(v[i])
    ensures Values(text) == Some(v)
    decreases |text|
  {
    if text != "" {
      SymbolRoundTrip(v[0]);
      ValuesOf(text[1..], v[1..]);
      assert v == [v[0]] + v[1..];
    }
  }

  lemma {:induction false} BitsRoundTrip(a: Byte, b: Byte, c: Byte)
    ensures Triple([a / 4, a % 4 * 16 + b / 16, b % 16 * 4 + c / 64, c % 64]) == [a, b, c]
  {
    var second, third := a % 4 * 16 + b / 16, b % 16 * 4 + c / 64;
    assert second / 16 == a % 4 && second % 16 == b / 16;
    assert third / 4 == b % 16 && third % 4 == c / 64;
  }

  lemma {:induction false} QuadRoundTrip(a: Byte, b: Byte, c: Byte)
    ensures var v := [a / 4, a % 4 * 16 + b / 16, b % 16 * 4 + c / 64, c % 64];
            && Values(Quad(a, b, c)) == Some(v)
            && Values(Quad(a, b, c)[..3]) == Some([v[0], v[1], v[2]]) && Values(Quad(a, b, c)[..2]) == Some([v[0], v[1]])
            && |Quad(a, b, c)| == 4 && forall i | 0 <= i < 4 :: Quad(a, b, c)[i] != '='
  {
    hide Symbol, Values, Value;
    var v := [a / 4, a % 4 * 16 + b / 16, b % 16 * 4 + c / 64, c % 64];
    ValuesOf(Quad(a, b, c), v);
    ValuesOf(Quad(a, b, c)[..3], [v[0], v[1], v[2]]);
    ValuesOf(Quad(a, b, c)[..2], [v[0], v[1]]);
    forall i | 0 <= i < 4 ensures Quad(a, b, c)[i] != '=' { SymbolRoundTrip(v[i]); }
  }

  lemma {:induction false} FullQuad(quad: string, rest: string, v: seq<int>, later: seq<int>)
    requires |quad| == 4 && quad[3] != '=' && Values(quad) == Some(v) && |v| == 4 && Unpadded(rest) == Some(later)
    ensures Unpadded(quad + rest) == Some(Triple(v) + later)
  {
    hide Values, Triple;
    var text := quad + rest;
    assert text[..4] == quad && text[4..] == rest;
    if |text| == 4 { assert text[2..][1] == quad[3]; }
  }

  lemma {:induction false} OneByte(a: Byte)
    ensures Unpadded(Quad(a, 0, 0)[..2] + "==") == Some([a])
  {
    QuadRoundTrip(a, 0, 0);
    var text := Quad(a, 0, 0)[..2] + "==";
    hide Quad, Values;
    assert text[..2] == Quad(a, 0, 0)[..2] && text[2..] == "==";
    var low := a % 4 * 16 + 0 / 16;
    assert low / 16 == a % 4;
    assert LastOne([a / 4, low]) == Some([a]);
  }

  lemma {:induction false} TwoBytes(a: Byte, b: Byte)
    ensures Unpadded(Quad(a, b, 0)[..3] + "=") == Some([a, b])
  {
    QuadRoundTrip(a, b, 0);
    var text := Quad(a, b, 0)[..3] + "=";
    hide Quad, Values;
    assert text[..3] == Quad(a, b, 0)[..3] && text[3] == '=';
    assert text[2] != '=' && text[2..][0] == text[2];
    var middle, low := a % 4 * 16 + b / 16, b % 16 * 4 + 0 / 64;
    assert middle / 16 == a % 4 && middle % 16 == b / 16 && low / 4 == b % 16;
    assert LastTwo([a / 4, middle, low]) == Some([a, b]);
  }

  lemma {:induction false} PaddedRoundTrip(bytes: seq<Byte>)
    ensures Unpadded(Padded(bytes)) == Some(bytes)
    ensures |Padded(bytes)| == (|bytes| + 2) / 3 * 4
    decreases |bytes|
  {
    hide Quad, Values, Triple, LastOne, LastTwo, Padded, Unpadded;
    if bytes == [] {
      PaddedNone();
    } else if |bytes| == 1 {
      PaddedOne(bytes[0]);
      assert bytes == [bytes[0]];
    } else if |bytes| == 2 {
      PaddedTwo(bytes[0], bytes[1]);
      assert bytes == [bytes[0], bytes[1]];
    } else {
      PaddedRoundTrip(bytes[3..]);
      PaddedMore(bytes[0], bytes[1], bytes[2], bytes[3..]);
      assert bytes == [bytes[0], bytes[1], bytes[2]] + bytes[3..];
    }
  }

  lemma {:induction false} PaddedNone()
    ensures Unpadded(Padded([])) == Some([]) && Padded([]) == ""
  {
  }

  lemma {:induction false} PaddedOne(a: Byte)
    ensures Unpadded(Padded([a])) == Some([a]) && |Padded([a])| == 4
  {
    OneByte(a);
    QuadRoundTrip(a, 0, 0);
    hide Quad, Values, Unpadded;
  }

  lemma {:induction false} PaddedTwo(a: Byte, b: Byte)
    ensures Unpadded(Padded([a, b])) == Some([a, b]) && |Padded([a, b])| == 4
  {
    TwoBytes(a, b);
    QuadRoundTrip(a, b, 0);
    hide Quad, Values, Unpadded;
  }

  lemma {:induction false} PaddedMore(a: Byte, b: Byte, c: Byte, rest: seq<Byte>)
    requires Unpadded(Padded(rest)) == Some(rest)
    ensures Unpadded(Padded([a, b, c] + rest)) == Some([a, b, c] + rest)
    ensures |Padded([a, b, c] + rest)| == 4 + |Padded(rest)|
  {
    QuadRoundTrip(a, b, c);
    BitsRoundTrip(a, b, c);
    hide Quad, Values, Unpadded, Triple;
    assert ([a, b, c] + rest)[3..] == rest;
    FullQuad(Quad(a, b, c), Padded(rest), Values(Quad(a, b, c)).value, rest);
  }

  /** All symbols of the stripped encoding are significant ones. */
  function Core(bytes: seq<Byte>): string
    decreases |bytes|
  {
    if bytes == [] then ""
    else if |bytes| == 1 then Quad(bytes[0], 0, 0)[..2]
    else if |bytes| == 2 then Quad(bytes[0], bytes[1], 0)[..3]
    else Quad(bytes[0], bytes[1], bytes[2]) + Core(bytes[3..])
  }

  function Signs(n: nat): string {
    if n % 3 == 1 then "==" else if n % 3 == 2 then "=" else ""
  }

  predicate Significant(text: string) {
    forall i | 0 <= i < |text| :: text[i] != '='
  }

  lemma {:induction false} QuadIsSignificant(a: Byte, b: Byte, c: Byte)
    ensures |Quad(a, b, c)| == 4 && Significant(Quad(a, b, c))
  {
    QuadRoundTrip(a, b, c);
  }

  lemma {:induction false} PaddedIsCore(bytes: seq<Byte>)
    ensures Padded(bytes) == Core(bytes) + Signs(|bytes|)
    ensures Significant(Core(bytes))
    ensures |Core(bytes)| == (4 * |bytes| + 2) / 3
    decreases |bytes|
  {
    hide Quad;
    if |bytes| == 1 {
      QuadIsSignificant(bytes[0], 0, 0);
    } else if |bytes| == 2 {
      QuadIsSignificant(bytes[0], bytes[1], 0);
    } else if |bytes| > 2 {
      var quad := Quad(bytes[0], bytes[1], bytes[2]);
      QuadIsSignificant(bytes[0], bytes[1], bytes[2]);
      PaddedIsCore(bytes[3..]);
      assert Signs(|bytes[3..]|) == Signs(|bytes|);
      assert quad + (Core(bytes[3..]) + Signs(|bytes|)) == (quad + Core(bytes[3..])) + Signs(|bytes|);
    }
  }

  lemma {:induction false} StripsSigns(core: string, signs: string)
    requires core == "" || core[|core| - 1] != '='
    requires signs == "" || signs == "=" || signs == "=="
    ensures Stripped(core + signs) == core
    decreases |signs|
  {
    if signs == "" {
      assert core + signs == core;
    } else if signs == "=" {
      assert (core + "=")[..|core|] == core;
    } else {
      StripsSigns(core, "=");
      assert (core + "==")[..|core| + 1] == core + "=";
    }
  }

  /**
   Stripping the padding loses nothing: padding by length alone restores it, so every byte
   string comes back; the stripped text has four symbols for three bytes, rounded up.
   */
  lemma {:induction false} StrippedRoundTrip(bytes: seq<Byte>)
    ensures Unpadded(Repadded(Stripped(Padded(bytes)))) == Some(bytes)
    ensures |Stripped(Padded(bytes))| == (4 * |bytes| + 2) / 3
  {
    hide Padded, Unpadded, Stripped, Core, Repadded, Signs, Significant;
    PaddedIsCore(bytes);
    StrippedIsCore(bytes);
    RepadsWithSigns(Core(bytes), |bytes|);
    PaddedRoundTrip(bytes);
  }

  lemma {:induction false} SignsAreFew(n: nat)
    ensures Signs(n) == "" || Signs(n) == "=" || Signs(n) == "=="
  {
  }

  lemma {:induction false} SignificantEnd(core: string)
    requires Significant(core)
    ensures core == "" || core[|core| - 1] != '='
  {
  }

  /** The length alone tells how much padding was removed. */
  lemma {:induction false} RepadsWithSigns(core: string, n: nat)
    requires |core| == (4 * n + 2) / 3
    ensures Repadded(core) == core + Signs(n)
  {
    var q, rest := n / 3, n % 3;
    assert n == 3 * q + rest;
    assert |core| == 4 * q + (if rest == 0 then 0 else rest + 1);
  }

  /** Two byte strings never share a text. */
  lemma {:induction false} EncodingIsInjective(one: seq<Byte>, two: seq<Byte>)
    requires Stripped(Padded(one)) == Stripped(Padded(two))
    ensures one == two
  {
    StrippedRoundTrip(one);
    StrippedRoundTrip(two);
  }

  lemma {:induction false} StrippedIsCore(bytes: seq<Byte>)
    ensures Stripped(Padded(bytes)) == Core(bytes)
  {
    PaddedIsCore(bytes);
    SignsAreFew(|bytes|);
    SignificantEnd(Core(bytes));
    StripsSigns(Core(bytes), Signs(|bytes|));
  }

  lemma {:induction false} ShortVectors()
    ensures Stripped(Padded([102])) == "Zg"
    ensures Stripped(Padded([102, 111])) == "Zm8"
    ensures Stripped(Padded([102, 111, 111])) == "Zm9v"
  {
    StrippedIsCore([102]);
    StrippedIsCore([102, 111]);
    StrippedIsCore([102, 111, 111]);
  }

  lemma {:induction false} FirstThree(b: Byte, rest: seq<Byte>)
    ensures Stripped(Padded([102, 111, 111, b] + rest)) == "Zm9v" + Core([b] + rest)
  {
    var bytes := [102, 111, 111, b] + rest;
    StrippedIsCore(bytes);
    assert bytes[3..] == [b] + rest;
    assert Core(bytes) == Quad(102, 111, 111) + Core([b] + rest);
  }

  lemma {:induction false} TailVectors()
    ensures Core([98]) == "Yg" && Core([98, 97]) == "YmE" && Core([98, 97, 114]) == "YmFy"
  {
  }

  /** The vectors of RFC 4648, section 10, without their padding: "f", "fo", "foo", "foob", "fooba" and "foobar". */
  lemma {:induction false} KnownVectors()
    ensures Stripped(Padded([102])) == "Zg"
    ensures Stripped(Padded([102, 111])) == "Zm8"
    ensures Stripped(Padded([102, 111, 111])) == "Zm9v"
    ensures Stripped(Padded([102, 111, 111, 98])) == "Zm9vYg"
    ensures Stripped(Padded([102, 111, 111, 98, 97])) == "Zm9vYmE"
    ensures Stripped(Padded([102, 111, 111, 98, 97, 114])) == "Zm9vYmFy"
  {
    hide Stripped, Padded, Core;
    ShortVectors();
    TailVectors();
    FirstThree(98, []);
    FirstThree(98, [97]);
    FirstThree(98, [97, 114]);
    assert [98] + [] == [98] && [98] + [97] == [98, 97] && [98] + [97, 114] == [98, 97, 114];
    assert [102, 111, 111, 98] + [] == [102, 111, 111, 98];
    assert [102, 111, 111, 98] + [97] == [102, 111, 111, 98, 97];
    assert [102, 111, 111, 98] + [97, 114] == [102, 111, 111, 98, 97, 114];
  }

  /** The two symbols in which the URL-safe alphabet differs from the standard one (RFC 4648, section 5). */
  lemma {:induction false} UrlAlphabet()
    ensures Symbol(62) == '-' && Symbol(63) == '_' && Stripped(Padded([251, 255])) == "-_8"
    ensures Value('-') == Value('+') && Value('_') == Value('/')
  {
    StrippedIsCore([251, 255]);
  }

  // ---------- the cursor ----------

  datatype Json = Null | Text(text: string) | Number(number: int) | Truth(truth: bool) | Other

  type Fields = map<string, Json>

  /** What the libraries provide; `parse` fails on bytes that are not UTF-8, not JSON or not an object, `timeOf` on a text that is no timestamp. */
  datatype Library = Library(render: Fields -> seq<Byte>, parse: seq<Byte> -> Option<Fields>, digest: Fields -> string, timeOf: string -> Option<int>)

  const CURSOR_VERSION := "deskpilot.effect-runtime-audit-export-cursor.v1"

  datatype Material = Material(exportId: string, time: string, through: int, throughDigest: Option<string>, after: int, afterDigest: string)

  function Optional(t: Option<string>): Json {
    if t == None then Null else Text(t.value)
  }

  function FieldsOf(m: Material): Fields {
    map["schema_version" := Text(CURSOR_VERSION), "export_id" := Text(m.exportId), "database_time" := Text(m.time),
        "through_sequence" := Number(m.through), "through_event_digest" := Optional(m.throughDigest),
        "after_sequence" := Number(m.after), "after_event_digest" := Text(m.afterDigest)]
  }

  /** An object with its own digest. */
  function Sealed(lib: Library, f: Fields): Fields {
    f["cursor_digest" := Text(lib.digest(f))]
  }

  function Payload(lib: Library, m: Material): Fields {
    Sealed(lib, FieldsOf(m))
  }

  function Encode(lib: Library, m: Material): string {
    Stripped(Padded(lib.render(Payload(lib, m))))
  }

  function Covered(p: Fields): Fields {
    map k | k in p && k != "cursor_digest" :: p[k]
  }

  predicate DigestValue(j: Json) {
    j == Null || (j.Text? && |j.text| == 64)
  }

  /** The checks on the values, once the eight fields are there. */
  predicate GoodValues(lib: Library, p: Fields) {
    && p.Keys == {"schema_version", "export_id", "database_time", "through_sequence", "through_event_digest", "after_sequence", "after_event_digest"}
    && p["schema_version"] == Text(CURSOR_VERSION)
    && p["export_id"].Text? && "opx_" <= p["export_id"].text && |p["export_id"].text| == 68
    && p["database_time"].Text?
    && p["through_sequence"].Number? && p["through_sequence"].number >= 0
    && p["after_sequence"].Number? && 0 <= p["after_sequence"].number <= p["through_sequence"].number
    && (p["through_sequence"].number == 0 <==> p["through_event_digest"] == Null)
    && (p["after_sequence"].number == 0 <==> p["after_event_digest"] == Null)
    && DigestValue(p["through_event_digest"]) && DigestValue(p["after_event_digest"])
    && lib.timeOf(p["database_time"].text).Some?
  }

  function AsBytes(values: seq<int>): Option<seq<Byte>> {
    if forall i | 0 <= i < |values| :: 0 <= values[i] < 256 then Some(values) else None
  }

  function Decode(lib: Library, cursor: string): Option<Fields> {
    if !(1 <= |cursor| <= 2048) then None
    else match Unpadded(Repadded(cursor))
         case None => None
         case Some(values) =>
           var raw := AsBytes(values);
           var payload := if raw == None then None else lib.parse(raw.value);
           if payload == None then None
           else
             var p := payload.value;
             if "cursor_digest" !in p || p["cursor_digest"] != Text(lib.digest(Covered(p))) then None
             else if !GoodValues(lib, Covered(p)) then None
             else Some(Covered(p))
  }

  lemma {:induction false} DecodedIsGood(lib: Library, cursor: string)
    ensures Decode(lib, cursor).Some? ==> GoodValues(lib, Decode(lib, cursor).value)
  {
    hide Unpadded, Repadded;
  }

  /** A cursor as the exporter makes them: after a full page, inside an export with a head. */
  predicate Exportable(lib: Library, m: Material) {
    && "opx_" <= m.exportId && |m.exportId| == 68
    && 1 <= m.after <= m.through && |m.afterDigest| == 64
    && m.throughDigest.Some? && |m.throughDigest.value| == 64
    && lib.timeOf(m.time).Some?
  }

  /**
   Every cursor the exporter makes is accepted and gives back exactly its material, as long as
   the library reads back the object it wrote; the 2048 symbols it may have are 1536 bytes of JSON.
   */
  lemma {:induction false} CursorRoundTrip(lib: Library, m: Material)
    requires Exportable(lib, m)
    requires lib.parse(lib.render(Payload(lib, m))) == Some(Payload(lib, m)) && lib.render(Payload(lib, m)) != []
    ensures Decode(lib, Encode(lib, m)) == if |lib.render(Payload(lib, m))| <= 1536 then Some(FieldsOf(m)) else None
  {
    hide Padded, Unpadded, Stripped, Repadded, FieldsOf;
    var bytes := lib.render(Payload(lib, m));
    StrippedRoundTrip(bytes);
    MaterialIsGood(lib, m);
  }

  lemma {:induction false} MaterialIsGood(lib: Library, m: Material)
    requires Exportable(lib, m)
    ensures Covered(Payload(lib, m)) == FieldsOf(m) && GoodValues(lib, FieldsOf(m))
    ensures "cursor_digest" in Payload(lib, m) && Payload(lib, m)["cursor_digest"] == Text(lib.digest(FieldsOf(m)))
  {
    assert Covered(Payload(lib, m)) == FieldsOf(m);
  }

  /**
   Exactly which texts are accepted: those whose bytes read back as some material in good order together
   with the digest of that same material. The digest has no key, so whoever knows the format can make one.
   */
  lemma {:induction false} AcceptedExactly(lib: Library, cursor: string, fields: Fields)
    requires 1 <= |cursor| <= 2048
    ensures Decode(lib, cursor) == Some(fields) <==>
              && GoodValues(lib, fields) && Unpadded(Repadded(cursor)).Some?
              && AsBytes(Unpadded(Repadded(cursor)).value).Some?
              && lib.parse(AsBytes(Unpadded(Repadded(cursor)).value).value) == Some(Sealed(lib, fields))
  {
    hide Unpadded, Repadded;
    assert Unpadded(Repadded(cursor)).Some? && AsBytes(Unpadded(Repadded(cursor)).value).Some?
           && lib.parse(AsBytes(Unpadded(Repadded(cursor)).value).value).Some? ==>
      var p := lib.parse(AsBytes(Unpadded(Repadded(cursor)).value).value).value;
      "cursor_digest" in p ==> p == Covered(p)["cursor_digest" := p["cursor_digest"]];
    if GoodValues(lib, fields) { assert Covered(Sealed(lib, fields)) == fields; }
  }
}
