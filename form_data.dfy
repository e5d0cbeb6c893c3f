/** The multipart request body both forms build, as the ordered list of
    (key, value) pairs a browser or React Native `FormData` holds, together
    with its two read operations, and the side effects a handler issues. */
module FormData {
  import opened Draft

  /** A `File` object selected in the browser. The model never looks inside
      it; the handle only tells two files apart. */
  datatype BrowserFile = BrowserFile(handle: nat)

  /** One value of the body: a text field, a React Native image descriptor
      `{ name, type, uri }`, or a browser file. */
  datatype Part =
    | Field(text: string)
    | PickedImage(name: string, mimeType: string, uri: string)
    | File(file: BrowserFile)

  type Entry = (string, Part)

  /** The body in the order `append` was called. */
  type Payload = seq<Entry>

  /** The keys of the body, in order. */
  function Keys(p: Payload): seq<string> {
    seq(|p|, i requires 0 <= i < |p| => p[i].0)
  }

  /** `FormData.get`: the value of the first entry with the key. */
  function Get(p: Payload, key: string): Option<Part>
    decreases |p|
  {
    if p == [] then None
    else if p[0].0 == key then Some(p[0].1)
    else Get(p[1..], key)
  }

  /** `FormData.getAll`: the values of every entry with the key, in order. */
  function GetAll(p: Payload, key: string): seq<Part>
    decreases |p|
  {
    if p == [] then []
    else (if p[0].0 == key then [p[0].1] else []) + GetAll(p[1..], key)
  }

  lemma {:induction false} GetFindsFirst(p: Payload, key: string, i: nat)
    requires i < |p| && p[i].0 == key
    requires forall j :: 0 <= j < i ==> p[j].0 != key
    ensures Get(p, key) == Some(p[i].1)
    decreases i
  {
    if i > 0 {
      assert p[0].0 != key;
      GetFindsFirst(p[1..], key, i - 1);
    }
  }

  lemma {:induction false} GetAllAppend(a: Payload, b: Payload, key: string)
    ensures GetAll(a + b, key) == GetAll(a, key) + GetAll(b, key)
    decreases |a|
  {
    if a != [] {
      assert (a + b)[1..] == a[1..] + b;
      GetAllAppend(a[1..], b, key);
    } else {
      assert a + b == b;
    }
  }

  /** When no entry carries the key, getAll returns nothing. */
  lemma {:induction false} GetAllAbsent(p: Payload, key: string)
    requires forall j :: 0 <= j < |p| ==> p[j].0 != key
    ensures GetAll(p, key) == []
    decreases |p|
  {
    if p != [] {
      GetAllAbsent(p[1..], key);
    }
  }

  /** When every entry carries the key, getAll returns every value in order. */
  lemma {:induction false} GetAllUniform(p: Payload, key: string)
    requires forall j :: 0 <= j < |p| ==> p[j].0 == key
    ensures |GetAll(p, key)| == |p|
    ensures forall j :: 0 <= j < |p| ==> GetAll(p, key)[j] == p[j].1
    decreases |p|
  {
    if p != [] {
      GetAllUniform(p[1..], key);
    }
  }

  /** `String(b)` for a JavaScript boolean. */
  function BoolToString(b: bool): string {
    if b then "true" else "false"
  }

  function DigitChar(d: nat): (c: char)
    requires d < 10
    ensures '0' <= c <= '9'
  {
    ('0' as int + d) as char
  }

  /** The decimal rendering of a non-negative integer, as a template literal
      `${index}` produces it: no sign, no leading zero. */
  function NatToString(n: nat): (s: string)
    ensures 1 <= |s|
    ensures (n < 10) == (|s| == 1)
    ensures forall i :: 0 <= i < |s| ==> '0' <= s[i] <= '9'
    decreases n
  {
    if n < 10 then [DigitChar(n)] else NatToString(n / 10) + [DigitChar(n % 10)]
  }

  /** The number a string of decimal digits spells, most significant digit
      first. */
  function DecimalValue(s: string): int
    decreases |s|
  {
    if s == [] then 0
    else DecimalValue(s[..|s| - 1]) * 10 + (s[|s| - 1] as int - '0' as int)
  }

  /** Reading the rendering back gives the index, and a rendering of more
      than one digit does not start with '0'. */
  lemma {:induction false} NatToStringRoundTrip(n: nat)
    ensures DecimalValue(NatToString(n)) == n
    ensures |NatToString(n)| > 1 ==> NatToString(n)[0] != '0'
    decreases n
  {
    var s := NatToString(n);
    if n < 10 {
      assert s[..0] == [];
    } else {
      var prefix := NatToString(n / 10);
      NatToStringRoundTrip(n / 10);
      assert s == prefix + [DigitChar(n % 10)];
      assert s[..|s| - 1] == prefix;
      assert s[0] == prefix[0];
      if |prefix| == 1 {
        assert prefix[..0] == [];
        assert DecimalValue(prefix) == prefix[0] as int - '0' as int;
      }
    }
  }

  /** Different indices render differently, so generated names never clash. */
  lemma NatToStringInjective(a: nat, b: nat)
    requires NatToString(a) == NatToString(b)
    ensures a == b
  {
    NatToStringRoundTrip(a);
    NatToStringRoundTrip(b);
  }

  /** A side effect of an event handler, recorded in the order issued. */
  datatype Effect =
    | Post(route: string, body: Payload)
    | Navigate(screen: string)
    | Alert(message: string)
    | PushHistory(path: string)
}
