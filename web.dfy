/** Browser and HTTP vocabulary shared by every component: optional values,
    query strings as ordered key/value lists (URLSearchParams without
    percent-encoding), outgoing requests, JavaScript values, cross-window
    messages, and the decimal rendering of numbers inside messages. */
module Web {

  datatype Option<+T> = None | Some(value: T) {
    function GetOr(default: T): T {
      match this
      case Some(v) => v
      case None => default
    }
  }

  datatype Result<+R, +E> = Ok(value: R) | Err(error: E)

  /** JavaScript truthiness of an optional string: `undefined`, `null` and "" are falsy. */
  predicate Present(s: Option<string>) {
    s.Some? && s.value != ""
  }

  /** One `key=value` pair of a query string or of a form body. */
  datatype Param = Param(key: string, value: string)

  /** The keys of a parameter list, in order and with repetitions. */
  function Keys(q: seq<Param>): (r: seq<string>)
    ensures |r| == |q|
    ensures forall i :: 0 <= i < |q| ==> r[i] == q[i].key
  {
    if q == [] then [] else [q[0].key] + Keys(q[1..])
  }

  /** `URLSearchParams.get(key)`: the value of the first pair with that key. */
  function Lookup(q: seq<Param>, key: string): (r: Option<string>)
    ensures r.None? <==> key !in Keys(q)
    ensures r.Some? ==> exists i :: 0 <= i < |q| && q[i] == Param(key, r.value)
                                    && key !in Keys(q[..i])
  {
    if q == [] then None
    else if q[0].key == key then Some(q[0].value)
    else
      var r := Lookup(q[1..], key);
      assert q[1..][..] == q[1..];
      if r.Some? then
        var i :| 0 <= i < |q[1..]| && q[1..][i] == Param(key, r.value) && key !in Keys(q[1..][..i]);
        assert q[..i + 1] == [q[0]] + q[1..][..i];
        r
      else r
  }

  /** No string occurs twice. */
  predicate Distinct(xs: seq<string>) {
    forall i, j :: 0 <= i < j < |xs| ==> xs[i] != xs[j]
  }

  /** In a list whose keys are distinct, looking up a pair's key finds that pair's value. */
  lemma {:induction false} LookupDistinct(q: seq<Param>, i: int)
    requires 0 <= i < |q| && Distinct(Keys(q))
    ensures Lookup(q, q[i].key) == Some(q[i].value)
  {
    if i > 0 {
      assert Keys(q)[0] != Keys(q)[i];
      assert Keys(q[1..]) == Keys(q)[1..];
      assert q[1..][i - 1] == q[i];
      LookupDistinct(q[1..], i - 1);
    }
  }

  /** `URLSearchParams.delete(key)`: every pair with that key goes; the rest keep their order. */
  function Delete(q: seq<Param>, key: string): (r: seq<Param>)
  {
    if q == [] then []
    else (if q[0].key == key then [] else [q[0]]) + Delete(q[1..], key)
  }

  /** The specification of removing a set of keys: keep exactly the pairs whose key is not in it. */
  function Without(q: seq<Param>, keys: set<string>): (r: seq<Param>)
  {
    if q == [] then []
    else (if q[0].key in keys then [] else [q[0]]) + Without(q[1..], keys)
  }

  lemma {:induction false} DeleteIsWithout(q: seq<Param>, key: string)
    ensures Delete(q, key) == Without(q, {key})
  {
    if q != [] {
      DeleteIsWithout(q[1..], key);
    }
  }

  lemma {:induction false} WithoutTwice(q: seq<Param>, a: set<string>, b: set<string>)
    ensures Without(Without(q, a), b) == Without(q, a + b)
  {
    if q != [] {
      WithoutTwice(q[1..], a, b);
      var head := if q[0].key in a then [] else [q[0]];
      assert Without(q, a) == head + Without(q[1..], a);
      WithoutConcat(head, Without(q[1..], a), b);
    }
  }

  lemma {:induction false} WithoutConcat(x: seq<Param>, y: seq<Param>, keys: set<string>)
    ensures Without(x + y, keys) == Without(x, keys) + Without(y, keys)
  {
    if x != [] {
      assert (x + y)[0] == x[0] && (x + y)[1..] == x[1..] + y;
      WithoutConcat(x[1..], y, keys);
    } else {
      assert x + y == y;
    }
  }

  /** What removing a set of keys leaves: none of those keys, and every other pair of the
      input exactly where it was relative to the others. */
  lemma {:induction false} WithoutMembers(q: seq<Param>, keys: set<string>)
    ensures forall p :: p in Without(q, keys) <==> p in q && p.key !in keys
  {
    if q != [] {
      WithoutMembers(q[1..], keys);
      assert q == [q[0]] + q[1..];
    }
  }

  /** The characters `String.prototype.trim` removes: ECMAScript WhiteSpace and LineTerminator. */
  predicate IsTrimmed(c: char) {
    c == '\t' || c == '\n' || c == '\U{000B}' || c == '\U{000C}' || c == '\r' || c == ' '
    || c == '\U{00A0}' || c == '\U{1680}' || ('\U{2000}' <= c <= '\U{200A}')
    || c == '\U{2028}' || c == '\U{2029}' || c == '\U{202F}' || c == '\U{205F}'
    || c == '\U{3000}' || c == '\U{FEFF}'
  }

  /** `s.trimStart()`: the input without its leading run of white space. */
  function TrimStart(s: string): (r: string)
    ensures r == [] || !IsTrimmed(r[0])
    ensures |r| <= |s| && r == s[|s| - |r|..]
    ensures forall j :: 0 <= j < |s| - |r| ==> IsTrimmed(s[j])
  {
    if s != [] && IsTrimmed(s[0]) then TrimStart(s[1..]) else s
  }

  /** `s.trimEnd()`: the input without its trailing run of white space. */
  function TrimEnd(s: string): (r: string)
    ensures r == [] || !IsTrimmed(r[|r| - 1])
    ensures |r| <= |s| && r == s[..|r|]
    ensures forall j :: |r| <= j < |s| ==> IsTrimmed(s[j])
  {
    if s != [] && IsTrimmed(s[|s| - 1]) then TrimEnd(s[..|s| - 1]) else s
  }

  /** `s.trim()`. */
  function Trim(s: string): string {
    TrimEnd(TrimStart(s))
  }

  /** A string trims to nothing exactly when it is all white space. */
  lemma TrimBlank(s: string)
    ensures Trim(s) == "" <==> forall j :: 0 <= j < |s| ==> IsTrimmed(s[j])
  {
  }

  /** Joins strings with a separator, as `Array.prototype.join`. */
  function Join(xs: seq<string>, sep: string): (r: string)
  {
    if xs == [] then "" else if |xs| == 1 then xs[0] else xs[0] + sep + Join(xs[1..], sep)
  }

  /** A URL as its base (scheme, host and path) and its search parameters. */
  datatype Url = Url(base: string, query: seq<Param>)

  /** The body of an outgoing request. */
  datatype Body =
    | NoBody
    | Form(params: seq<Param>)          // application/x-www-form-urlencoded
    | JsonFields(fields: seq<Param>)    // a JSON object whose members are all strings

  /** An outgoing HTTP request; `query` holds the URL's search parameters. */
  datatype Request = Request(verb: string, url: string, query: seq<Param>, headers: seq<Param>, body: Body)

  /** JavaScript values, as far as the message guards look into them. */
  datatype JsValue =
    | JsUndefined
    | JsNull
    | JsBool(b: bool)
    | JsNumber(n: int)
    | JsString(s: string)
    | JsObject(members: map<string, JsValue>)

  /** Property access `v[name]`: `undefined` on anything but an object holding that member. */
  function Member(v: JsValue, name: string): JsValue {
    if v.JsObject? && name in v.members then v.members[name] else JsUndefined
  }

  /** A `MessageEvent` as the receiving window sees it. */
  datatype MessageEvent = MessageEvent(origin: string, data: JsValue)

  /** A call `postMessage(data, targetOrigin)` made by a window at `senderOrigin`. */
  datatype Posted = Posted(senderOrigin: string, targetOrigin: string, data: JsValue)

  /** The browser delivers a posted message to a window only when that window's origin is the
      target origin, and stamps it with the sender's origin. */
  function Deliver(p: Posted, receiverOrigin: string): (r: Option<MessageEvent>)
    ensures r.Some? <==> receiverOrigin == p.targetOrigin
    ensures r.Some? ==> r.value.origin == p.senderOrigin && r.value.data == p.data
  {
    if receiverOrigin == p.targetOrigin then Some(MessageEvent(p.senderOrigin, p.data)) else None
  }

  function DigitChar(d: nat): char
    requires d < 10
  {
    "0123456789"[d]
  }

  function NatDecimal(n: nat): (r: string)
    ensures |r| > 0
    decreases n
  {
    if n < 10 then [DigitChar(n)] else NatDecimal(n / 10) + [DigitChar(n % 10)]
  }

  /** `String(n)` for an integral number. */
  function Decimal(n: int): string {
    if n < 0 then "-" + NatDecimal(-n) else NatDecimal(n)
  }
}
