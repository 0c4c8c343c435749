// The API contract shared by client and server: the shape check applied to
// the body of an order-creation request, and the URL template builder.
module ApiRoutes {
  import opened Wrappers
  import opened Schema

  /** A parsed JSON value. Numbers are integers in this model. */
  datatype Json =
    | JNull
    | JBool(b: bool)
    | JNumber(n: int)
    | JString(s: string)
    | JArray(elems: seq<Json>)
    | JObject(fields: map<string, Json>)

  // ---- The order-creation input: {address: string, items: [{productId: number, quantity: number >= 1}]} ----

  /** One element of `items`: an object whose productId is a number and whose
      quantity is a number of at least 1; any other key is stripped. */
  function ParseLine(j: Json): (r: Option<OrderLine>)
    ensures r.Some? <==>
      && j.JObject?
      && "productId" in j.fields && j.fields["productId"].JNumber?
      && "quantity" in j.fields && j.fields["quantity"].JNumber?
      && j.fields["quantity"].n >= 1
    ensures r.Some? ==> r.value == OrderLine(j.fields["productId"].n, j.fields["quantity"].n)
  {
    match j
    case JObject(m) =>
      if "productId" in m && m["productId"].JNumber? && "quantity" in m && m["quantity"].JNumber?
         && m["quantity"].n >= 1
      then Some(OrderLine(m["productId"].n, m["quantity"].n))
      else None
    case _ => None
  }

  /** The array of items: accepted exactly when every element is, element by element. */
  function ParseLines(js: seq<Json>): (r: Option<seq<OrderLine>>)
    ensures r.Some? <==> forall i :: 0 <= i < |js| ==> ParseLine(js[i]).Some?
    ensures r.Some? ==> |r.value| == |js| && forall i :: 0 <= i < |js| ==> r.value[i] == ParseLine(js[i]).value
  {
    if js == [] then Some([])
    else
      var head := ParseLine(js[0]);
      var tail := ParseLines(js[1..]);
      if head.Some? && tail.Some? then
        assert forall i :: 1 <= i < |js| ==> js[i] == js[1..][i - 1];
        Some([head.value] + tail.value)
      else
        assert head.None? ==> !ParseLine(js[0]).Some?;
        assert tail.None? ==> exists i :: 1 <= i < |js| && ParseLine(js[i]).None? by {
          if tail.None? {
            var i :| 0 <= i < |js[1..]| && ParseLine(js[1..][i]).None?;
            assert js[i + 1] == js[1..][i];
          }
        }
        None
  }

  /** The order-creation input: an object with a string `address` and an
      array `items` whose every element is a valid line. */
  function ParseCreateOrderInput(j: Json): (r: Option<CreateOrderRequest>)
    ensures r.Some? <==>
      && j.JObject? && "address" in j.fields && j.fields["address"].JString?
      && "items" in j.fields && j.fields["items"].JArray?
      && forall i :: 0 <= i < |j.fields["items"].elems| ==> ParseLine(j.fields["items"].elems[i]).Some?
    ensures r.Some? ==> r.value.address == j.fields["address"].s
    ensures r.Some? ==> |r.value.items| == |j.fields["items"].elems|
                        && forall i :: 0 <= i < |r.value.items| ==>
                             r.value.items[i] == ParseLine(j.fields["items"].elems[i]).value
                             && r.value.items[i].quantity >= 1
  {
    match j
    case JObject(m) =>
      if "address" in m && m["address"].JString? && "items" in m && m["items"].JArray? then
        var lines := ParseLines(m["items"].elems);
        if lines.Some? then Some(CreateOrderRequest(m["address"].s, lines.value)) else None
      else None
    case _ => None
  }

  /** An element with a quantity below 1 makes the whole input invalid. */
  lemma RejectsLowQuantity(j: Json, k: nat)
    requires j.JObject? && "items" in j.fields && j.fields["items"].JArray?
    requires k < |j.fields["items"].elems|
    requires var e := j.fields["items"].elems[k];
      e.JObject? && "quantity" in e.fields && e.fields["quantity"].JNumber? && e.fields["quantity"].n < 1
    ensures ParseCreateOrderInput(j).None?
  {
  }

  /** Any address string is accepted, the empty one included, and so is an empty item list. */
  lemma AcceptsAnyAddressAndNoItems(address: string)
    ensures ParseCreateOrderInput(JObject(map["address" := JString(address), "items" := JArray([])]))
            == Some(CreateOrderRequest(address, []))
  {
  }

  /** Keys other than productId and quantity (a client-supplied price, say)
      are stripped and cannot change the parsed line. */
  lemma LineIgnoresOtherKeys(m: map<string, Json>, key: string, v: Json)
    requires key != "productId" && key != "quantity"
    ensures ParseLine(JObject(m[key := v])) == ParseLine(JObject(m))
  {
  }

  // ---- String conversion of a parameter value ----

  datatype ParamValue = Str(s: string) | Num(n: int)

  function DigitChar(d: nat): char
    requires d < 10
  {
    "0123456789"[d]
  }

  /** The decimal digits of a natural number, most significant first. */
  function Digits(n: nat): (r: string)
    ensures |r| >= 1 && forall i :: 0 <= i < |r| ==> '0' <= r[i] <= '9'
    ensures r[0] == '0' ==> n == 0
  {
    if n < 10 then [DigitChar(n)] else Digits(n / 10) + [DigitChar(n % 10)]
  }

  /** `String(n)` for an integer: an optional minus sign and its digits. */
  function Decimal(n: int): string
  {
    if n < 0 then "-" + Digits(-n) else Digits(n)
  }

  function Stringify(v: ParamValue): string
  {
    match v
    case Str(s) => s
    case Num(n) => Decimal(n)
  }

  /** Reads a string of decimal digits back as a number. */
  function DigitsValue(s: string): int
  {
    if s == [] then 0 else DigitsValue(s[..|s| - 1]) * 10 + (s[|s| - 1] as int - '0' as int)
  }

  /** The decimal form reads back as the number it was made from. */
  lemma {:induction false} DigitsRoundTrip(n: nat)
    ensures DigitsValue(Digits(n)) == n
  {
    if n >= 10 {
      var s := Digits(n);
      assert s[..|s| - 1] == Digits(n / 10);
      DigitsRoundTrip(n / 10);
    }
  }

  // ---- First-occurrence search and replacement ----

  predicate OccursAt(s: string, pat: string, i: nat)
  {
    i + |pat| <= |s| && s[i..i + |pat|] == pat
  }

  /** The first position at or after `from` where `pat` occurs. */
  function FindFrom(s: string, pat: string, from: nat): (r: Option<nat>)
    decreases |s| - from
    ensures r.Some? ==> from <= r.value && OccursAt(s, pat, r.value)
    ensures r.Some? ==> forall j :: from <= j < r.value ==> !OccursAt(s, pat, j)
    ensures r.None? ==> forall j :: from <= j ==> !OccursAt(s, pat, j)
  {
    if from + |pat| > |s| then None
    else if s[from..from + |pat|] == pat then Some(from)
    else FindFrom(s, pat, from + 1)
  }

  /** `s.includes(pat)`. */
  predicate Includes(s: string, pat: string)
  {
    FindFrom(s, pat, 0).Some?
  }

  /** The replacement text of `String.prototype.replace` with a string pattern:
      "$$" gives "$", "$&" the matched text, "$`" the text before the match,
      "$'" the text after it; every other character stands for itself. */
  function Expand(rep: string, matched: string, before: string, after: string): string
  {
    if rep == [] then []
    else if |rep| >= 2 && rep[0] == '$' && rep[1] == '$' then "$" + Expand(rep[2..], matched, before, after)
    else if |rep| >= 2 && rep[0] == '$' && rep[1] == '&' then matched + Expand(rep[2..], matched, before, after)
    else if |rep| >= 2 && rep[0] == '$' && rep[1] == '`' then before + Expand(rep[2..], matched, before, after)
    else if |rep| >= 2 && rep[0] == '$' && rep[1] == '\'' then after + Expand(rep[2..], matched, before, after)
    else [rep[0]] + Expand(rep[1..], matched, before, after)
  }

  /** A replacement without '$' is inserted literally. */
  lemma {:induction false} ExpandLiteral(rep: string, matched: string, before: string, after: string)
    requires forall i :: 0 <= i < |rep| ==> rep[i] != '$'
    ensures Expand(rep, matched, before, after) == rep
  {
    if rep != [] {
      ExpandLiteral(rep[1..], matched, before, after);
    }
  }

  /** `s.replace(pat, rep)`: only the first occurrence is replaced. */
  function ReplaceFirst(s: string, pat: string, rep: string): string
  {
    match FindFrom(s, pat, 0)
    case None => s
    case Some(i) => s[..i] + Expand(rep, pat, s[..i], s[i + |pat|..]) + s[i + |pat|..]
  }

  /** Replacing in a string with a first occurrence right after `pre`. */
  lemma ReplaceFirstAt(pre: string, pat: string, suf: string, rep: string)
    requires forall j :: 0 <= j < |pre| ==> !OccursAt(pre + pat + suf, pat, j)
    ensures ReplaceFirst(pre + pat + suf, pat, rep) == pre + Expand(rep, pat, pre, suf) + suf
  {
    var s := pre + pat + suf;
    assert OccursAt(s, pat, |pre|) by {
      assert s[|pre|..|pre| + |pat|] == pat;
    }
    var r := FindFrom(s, pat, 0);
    assert r == Some(|pre|);
    assert s[..|pre|] == pre;
    assert s[|pre| + |pat|..] == suf;
  }

  // ---- buildUrl ----

  /** One step of the loop over the params: replace the first ":key", if any. */
  function Substitute(url: string, key: string, value: ParamValue): string
  {
    if Includes(url, ":" + key) then ReplaceFirst(url, ":" + key, Stringify(value)) else url
  }

  /** The params applied in order, each to the result of the previous ones. */
  function ApplyParams(url: string, params: seq<(string, ParamValue)>): string
    decreases |params|
  {
    if params == [] then url else ApplyParams(Substitute(url, params[0].0, params[0].1), params[1..])
  }

  /** `buildUrl(path, params)`. `params` stands for `Object.entries` of the
      params object: distinct keys, integer-like keys first in ascending
      order, then the others in insertion order. */
  method BuildUrl(path: string, params: Option<seq<(string, ParamValue)>>) returns (url: string)
    ensures params.None? ==> url == path
    ensures params.Some? ==> url == ApplyParams(path, params.value)
  {
    url := path;
    if params.Some? {
      var ps := params.value;
      var i := 0;
      while i < |ps|
        invariant 0 <= i <= |ps|
        invariant ApplyParams(url, ps[i..]) == ApplyParams(path, ps)
      {
        assert ps[i..][1..] == ps[i + 1..];
        if Includes(url, ":" + ps[i].0) {
          url := ReplaceFirst(url, ":" + ps[i].0, Stringify(ps[i].1));
        }
        i := i + 1;
      }
      assert ps[i..] == [];
    }
  }

  /** A key whose ":key" does not occur leaves the url unchanged. */
  lemma SubstituteAbsent(url: string, key: string, value: ParamValue)
    requires forall j :: 0 <= j < |url| ==> !OccursAt(url, ":" + key, j)
    ensures Substitute(url, key, value) == url
  {
  }

  /** A single numeric `:id` parameter becomes its decimal form in place. */
  lemma BuildIdUrl(pre: string, suf: string, n: int)
    requires forall i :: 0 <= i < |pre| ==> pre[i] != ':'
    ensures ApplyParams(pre + ":id" + suf, [("id", Num(n))]) == pre + Decimal(n) + suf
  {
    var s := pre + ":id" + suf;
    forall j | 0 <= j < |pre| ensures !OccursAt(s, ":id", j) {
      assert s[j] == pre[j];
    }
    ReplaceFirstAt(pre, ":id", suf, Decimal(n));
    ExpandLiteral(Decimal(n), ":id", pre, suf);
    assert OccursAt(s, ":id", |pre|) by {
      assert s[|pre|..|pre| + 3] == ":id";
    }
    assert ":" + "id" == ":id";
    assert Includes(s, ":id");
    assert Substitute(s, "id", Num(n)) == pre + Decimal(n) + suf;
    assert [("id", Num(n))][1..] == [];
  }

  /** The order-detail url of the API for order 7. */
  lemma OrderSevenUrl()
    ensures ApplyParams("/api/orders/:id", [("id", Num(7))]) == "/api/orders/7"
  {
    BuildIdUrl("/api/orders/", "", 7);
    assert "/api/orders/" + ":id" + "" == "/api/orders/:id";
    assert Decimal(7) == "7";
  }
}
