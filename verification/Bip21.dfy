/** Payment URIs (packages/wallet-ui/src/bip21.ts).  A request's label is its `memo` here. */
module Bip21 {
  import opened Wrappers
  import opened Text
  import opened Amounts
  import opened Urls

  datatype PaymentRequest = PaymentRequest(address: string, amountSat: Option<nat>, memo: Option<string>)

  const SCHEME := "bitcoin:"

  function Lower(c: char): char {
    if IsUpper(c) then (c as int + 32) as char else c
  }

  predicate HasScheme(text: string) {
    |text| >= 8 && forall i :: 0 <= i < 8 ==> Lower(text[i]) == SCHEME[i]
  }

  predicate IsBare(text: string) {
    14 <= |text| <= 90 && forall i :: 0 <= i < |text| ==> IsAlnum(text[i])
  }

  // ---------------------------------------------------------------- the parameters

  /** The first value under a name. */
  function Get(ps: seq<Param>, name: string): Option<string> {
    if ps == [] then None else if ps[0].name == name then Some(ps[0].value) else Get(ps[1..], name)
  }

  predicate Demands(p: Param) {
    "req-" <= p.name
  }

  predicate DemandsNothing(ps: seq<Param>) {
    forall i :: 0 <= i < |ps| ==> !Demands(ps[i])
  }

  /** The amount as given: not trimmed, and exact or nothing. */
  function AmountOf(round: nat -> nat, ps: seq<Param>): Option<nat> {
    match Get(ps, "amount")
    case None => None
    case Some(text) => if text == JsTrim(text) then ParseAmount(round, text, Btc).sats else None
  }

  function LabelOf(ps: seq<Param>): Option<string> {
    var memo := if Get(ps, "label").Some? then Get(ps, "label") else Get(ps, "message");
    if memo == Some("") then None else memo
  }

  // ---------------------------------------------------------------- parsing

  /** The text before the first `?`, and from there to the next one. */
  function SplitQuery(rest: string): (string, string) {
    var i := Find(rest, '?');
    if i == |rest| then (rest, "") else
    var query := rest[i + 1..];
    (rest[..i], query[..Find(query, '?')])
  }

  function ParsedUri(round: nat -> nat, addressPart: string, queryPart: string): Option<PaymentRequest> {
    match DecodeComponent(addressPart)
    case None => None
    case Some(decoded) =>
      var address := JsTrim(decoded);
      var ps := ParseParams(queryPart);
      if address == "" || !DemandsNothing(ps) then None
      else Some(PaymentRequest(address, AmountOf(round, ps), LabelOf(ps)))
  }

  function Parsed(round: nat -> nat, input: string): Option<PaymentRequest> {
    var text := JsTrim(input);
    if !HasScheme(text) then if IsBare(text) then Some(PaymentRequest(text, None, None)) else None
    else ParsedUri(round, SplitQuery(text[8..]).0, SplitQuery(text[8..]).1)
  }

  /** After the scheme. */
  method ReadUri(round: nat -> nat, addressPart: string, queryPart: string) returns (out: Option<PaymentRequest>)
    ensures out == ParsedUri(round, addressPart, queryPart)
  {
    var decoded := DecodeComponent(addressPart);
    if decoded.None? {
      return None;
    }
    var address := JsTrim(decoded.value);
    if address == "" {
      return None;
    }
    var ps := ParseParams(queryPart);
    for i := 0 to |ps|
      invariant forall k :: 0 <= k < i ==> !Demands(ps[k])
    {
      if Demands(ps[i]) {
        return None;
      }
    }
    out := Some(PaymentRequest(address, AmountOf(round, ps), LabelOf(ps)));
  }

  method ParsePaymentUri(round: nat -> nat, input: string) returns (out: Option<PaymentRequest>)
    ensures out == Parsed(round, input)
  {
    var text := JsTrim(input);
    if text == "" {
      return None;
    }
    if !HasScheme(text) {
      return if IsBare(text) then Some(PaymentRequest(text, None, None)) else None;
    }
    var parts := SplitQuery(text[8..]);
    out := ReadUri(round, parts.0, parts.1);
  }

  // ---------------------------------------------------------------- building

  function SetParam(ps: seq<Param>, name: string, value: string): seq<Param> {
    if ps == [] then [Param(name, value)]
    else if ps[0].name == name then [Param(name, value)] + Without(ps[1..], name)
    else [ps[0]] + SetParam(ps[1..], name, value)
  }

  function Without(ps: seq<Param>, name: string): seq<Param> {
    if ps == [] then [] else (if ps[0].name == name then [] else [ps[0]]) + Without(ps[1..], name)
  }

  /** `URLSearchParams`, as far as it is used. */
  class SearchParams {
    var list: seq<Param>

    constructor ()
      ensures list == []
    {
      list := [];
    }

    method Set(name: string, value: string)
      modifies this
      ensures list == SetParam(old(list), name, value)
    {
      list := SetParam(list, name, value);
    }
  }

  function ParamsOf(r: PaymentRequest): seq<Param> {
    (if r.amountSat.Some? && r.amountSat.value > 0 then [Param("amount", FormatAmount(r.amountSat.value, Btc))] else [])
    + (if r.memo.Some? && r.memo.value != "" then [Param("label", r.memo.value)] else [])
  }

  /** A parameter set reads as that, once, and every other reads as before. */
  lemma {:induction false} SetParamIs(ps: seq<Param>, name: string, value: string, other: string)
    ensures Get(SetParam(ps, name, value), name) == Some(value)
    ensures other != name ==> Get(SetParam(ps, name, value), other) == Get(ps, other)
    ensures exists i: nat :: OnlyNamed(SetParam(ps, name, value), name, i)
  {
    if ps == [] {
      assert OnlyNamed([Param(name, value)], name, 0);
    } else if ps[0].name == name {
      WithoutIs(ps[1..], name, other);
      assert OnlyNamed(SetParam(ps, name, value), name, 0);
    } else {
      SetParamIs(ps[1..], name, value, other);
      var i: nat :| OnlyNamed(SetParam(ps[1..], name, value), name, i);
      assert OnlyNamed(SetParam(ps, name, value), name, i + 1);
    }
  }

  predicate OnlyNamed(ps: seq<Param>, name: string, i: nat) {
    i < |ps| && forall k :: 0 <= k < |ps| ==> (ps[k].name == name <==> k == i)
  }

  lemma {:induction false} WithoutIs(ps: seq<Param>, name: string, other: string)
    ensures forall i :: 0 <= i < |Without(ps, name)| ==> Without(ps, name)[i].name != name
    ensures other != name ==> Get(Without(ps, name), other) == Get(ps, other)
  {
    if ps != [] {
      WithoutIs(ps[1..], name, other);
      var rest := Without(ps[1..], name);
      if ps[0].name == name {
        assert Without(ps, name) == rest;
      } else {
        assert Without(ps, name) == [ps[0]] + rest && ([ps[0]] + rest)[1..] == rest;
      }
    }
  }

  /** An amount goes in exactly when there is one above zero, a label exactly when there is one with something in it, and nothing else does. */
  lemma ParamsExactly(r: PaymentRequest, name: string)
    ensures Get(ParamsOf(r), "amount").Some? <==> r.amountSat.Some? && r.amountSat.value > 0
    ensures Get(ParamsOf(r), "label").Some? <==> r.memo.Some? && r.memo.value != ""
    ensures name != "amount" && name != "label" ==> Get(ParamsOf(r), name).None?
    ensures r.amountSat.Some? && r.amountSat.value > 0 ==> Get(ParamsOf(r), "amount") == Some(FormatAmount(r.amountSat.value, Btc))
    ensures r.memo.Some? && r.memo.value != "" ==> Get(ParamsOf(r), "label") == r.memo
  {
    var ps := ParamsOf(r);
    assert |ps| > 0 ==> Get(ps, name) == if ps[0].name == name then Some(ps[0].value) else Get(ps[1..], name);
    assert |ps| > 1 ==> Get(ps[1..], name) == if ps[1].name == name then Some(ps[1].value) else Get(ps[2..], name);
  }

  function WithQuery(address: string, query: string): string {
    SCHEME + address + if query == "" then "" else "?" + query
  }

  function Built(r: PaymentRequest): string {
    WithQuery(r.address, FormatParams(ParamsOf(r)))
  }

  method BuildPaymentUri(r: PaymentRequest) returns (uri: string)
    ensures uri == Built(r)
  {
    var params := new SearchParams();
    if r.amountSat.Some? && r.amountSat.value > 0 {
      params.Set("amount", FormatAmount(r.amountSat.value, Btc));
    }
    if r.memo.Some? && r.memo.value != "" {
      params.Set("label", r.memo.value);
    }
    assert params.list == ParamsOf(r);
    var query := FormatParams(params.list);
    uri := "bitcoin:" + r.address + if query != "" then "?" + query else "";
  }

  // ---------------------------------------------------------------- what a parsed request is

  lemma BareIsTight(text: string)
    requires IsBare(text)
    ensures Tight(IsJsSpace, text) && text != ""
  {
  }

  /** Whatever comes in, an address that comes out is not empty and has no space around it. */
  lemma ParsedIsTight(round: nat -> nat, input: string)
    requires Parsed(round, input).Some?
    ensures var r := Parsed(round, input).value; r.address != "" && Tight(IsJsSpace, r.address) && r.memo != Some("")
  {
    var text := JsTrim(input);
    if HasScheme(text) {
      var decoded := DecodeComponent(SplitQuery(text[8..]).0).value;
      TrimIsTight(IsJsSpace, decoded);
    } else {
      BareIsTight(text);
    }
  }

  /** An amount is taken exactly when its text, as it stands, denotes a safe positive number of sats. */
  lemma AmountIsExact(round: nat -> nat, ps: seq<Param>, n: nat)
    requires Rounding(round)
    ensures AmountOf(round, ps) == Some(n) <==>
            var text := Get(ps, "amount");
            text.Some? && text.value == JsTrim(text.value) && DenotesBtc(text.value, n) && 1 <= n <= MAX_SAFE
  {
    if Get(ps, "amount").Some? {
      var text := Get(ps, "amount").value;
      BtcAcceptsExactly(round, text, n);
      SatsAlone(round, text, n);
    }
  }

  lemma SatsAlone(round: nat -> nat, text: string, n: nat)
    ensures ParseAmount(round, text, Btc).sats == Some(n) <==> ParseAmount(round, text, Btc) == AmountParse(Some(n), None)
  {
  }

  /** The parameter of this name that comes first, if there is one. */
  predicate FirstNamed(ps: seq<Param>, name: string, i: nat) {
    i < |ps| && ps[i].name == name && forall k :: 0 <= k < i ==> ps[k].name != name
  }

  lemma {:induction false} GetsFirst(ps: seq<Param>, name: string)
    ensures Get(ps, name).None? <==> forall i :: 0 <= i < |ps| ==> ps[i].name != name
    ensures forall i: nat :: FirstNamed(ps, name, i) ==> Get(ps, name) == Some(ps[i].value)
  {
    if ps != [] {
      GetsFirst(ps[1..], name);
      forall i: nat | FirstNamed(ps, name, i)
        ensures Get(ps, name) == Some(ps[i].value)
      {
        if i > 0 {
          assert FirstNamed(ps[1..], name, i - 1);
        }
      }
    }
  }

  /** A label is the first `label`, else the first `message`; and an empty one is none. */
  lemma LabelIs(ps: seq<Param>)
    ensures Get(ps, "label").Some? && Get(ps, "label") != Some("") ==> LabelOf(ps) == Get(ps, "label")
    ensures Get(ps, "label").None? && Get(ps, "message") != Some("") ==> LabelOf(ps) == Get(ps, "message")
    ensures Get(ps, "label") == Some("") || (Get(ps, "label").None? && Get(ps, "message") == Some("")) ==> LabelOf(ps).None?
  {
  }

  predicate SameButCase(c: char, d: char) {
    c == d || ('A' <= c <= 'Z' && c as int + 32 == d as int)
  }

  /** A URI is what starts with the scheme, in any case. */
  predicate StartsWithScheme(text: string) {
    |text| >= 8 && forall i :: 0 <= i < 8 ==> SameButCase(text[i], "bitcoin:"[i])
  }

  /**
   What is refused: with the scheme, a broken escape, no address, or any demand made in the
   query by a name that starts with `req-`; without it, anything but 14 to 90 letters and digits.
   */
  lemma RefusedExactly(round: nat -> nat, input: string)
    ensures var text := JsTrim(input);
            var (address, query) := SplitQuery(text[if |text| < 8 then |text| else 8..]);
            Parsed(round, input).None? <==>
            if StartsWithScheme(text) then
              || DecodeComponent(address).None? || JsTrim(DecodeComponent(address).value) == ""
              || AnyDemand(ParseParams(query))
            else
              !(14 <= |text| <= 90 && forall i :: 0 <= i < |text| ==>
                  'a' <= text[i] <= 'z' || 'A' <= text[i] <= 'Z' || '0' <= text[i] <= '9')
  {
    var text := JsTrim(input);
    SchemeIs(text);
    if StartsWithScheme(text) {
      var (address, query) := SplitQuery(text[8..]);
      UriRefused(round, address, query);
    } else {
      BareIs(text);
    }
  }

  lemma UriRefused(round: nat -> nat, address: string, query: string)
    ensures ParsedUri(round, address, query).None? <==>
            || DecodeComponent(address).None? || JsTrim(DecodeComponent(address).value) == ""
            || AnyDemand(ParseParams(query))
  {
    DemandsAre(ParseParams(query));
  }

  /** Some name starts with `req-`. */
  predicate AnyDemand(ps: seq<Param>) {
    exists i :: 0 <= i < |ps| && "req-" <= ps[i].name
  }

  lemma DemandsAre(ps: seq<Param>)
    ensures DemandsNothing(ps) <==> !AnyDemand(ps)
  {
    if !DemandsNothing(ps) {
      var i :| 0 <= i < |ps| && Demands(ps[i]);
      assert "req-" <= ps[i].name;
    }
    if AnyDemand(ps) {
      var i :| 0 <= i < |ps| && "req-" <= ps[i].name;
      assert Demands(ps[i]);
    }
  }

  lemma BareIs(text: string)
    ensures IsBare(text) <==>
            14 <= |text| <= 90 && forall i :: 0 <= i < |text| ==>
              'a' <= text[i] <= 'z' || 'A' <= text[i] <= 'Z' || '0' <= text[i] <= '9'
  {
  }

  lemma SchemeIs(text: string)
    ensures HasScheme(text) <==> StartsWithScheme(text)
  {
  }

  /** The address is what stands between the scheme and the first `?`, and the query from there to the next one. */
  lemma SplitsAtQuestion(rest: string)
    ensures var (address, query) := SplitQuery(rest);
            && '?' !in address && '?' !in query
            && (rest == address ==> query == "")
            && (rest == address || exists tail :: rest == address + "?" + tail && UpToQuestion(query, tail))
  {
    var i := Find(rest, '?');
    if i < |rest| {
      var tail := rest[i + 1..];
      assert rest == rest[..i] + "?" + tail;
      FindSplits(tail);
    }
  }

  /** All of a text, or all of it before its first `?`. */
  predicate UpToQuestion(part: string, text: string) {
    '?' !in part && (part == text || part + "?" <= text)
  }

  lemma FindSplits(text: string)
    ensures UpToQuestion(text[..Find(text, '?')], text)
  {
    var j := Find(text, '?');
    if j < |text| {
      assert text[..j] + "?" == text[..j + 1];
    }
  }

  // ---------------------------------------------------------------- the round trip

  /** The addresses a URI can carry as they are. */
  predicate Carries(address: string) {
    address != "" && Tight(IsJsSpace, address) && '?' !in address && '%' !in address
  }

  lemma QueryEnds(ps: seq<Param>)
    ensures var q := FormatParams(ps); '?' !in q && (q != "" ==> !IsJsSpace(q[|q| - 1])) && (q == "" <==> ps == [])
  {
    FormatParamsQuery(ps);
    var q := FormatParams(ps);
    forall c | c in q
      ensures !IsJsSpace(c) && c != '?'
    {
      QueryCharIsPlain(c);
    }
    if ps != [] {
      PieceRoundTrip(ps[0]);
    }
  }

  lemma QueryCharIsPlain(c: char)
    requires IsFormChar(c) || c == '=' || c == '&'
    ensures !IsJsSpace(c) && c != '?'
  {
  }

  lemma BuiltIsTight(address: string, query: string)
    requires if query == "" then address != "" && Tight(IsJsSpace, address) else !IsJsSpace(query[|query| - 1])
    ensures JsTrim(WithQuery(address, query)) == WithQuery(address, query)
    ensures HasScheme(WithQuery(address, query))
  {
  }

  lemma SplitBuilt(address: string, query: string)
    requires '?' !in query
    ensures '?' !in address ==> SplitQuery(WithQuery(address, query)[8..]) == (address, query)
    ensures '?' in address ==> |SplitQuery(WithQuery(address, query)[8..]).0| < |address|
  {
    var rest := WithQuery(address, query)[8..];
    assert rest == address + if query == "" then "" else "?" + query;
    if '?' in address {
      FindWithin(address, rest);
    } else if query == "" {
      assert rest == address;
      FindAt(address, '?', "");
    } else {
      assert rest == address + "?" + query;
      FindAt(address, '?', query);
      FindAt(query, '?', "");
      assert rest[..|address|] == address && rest[|address| + 1..] == query && query[..|query|] == query;
    }
  }

  lemma {:induction false} FindWithin(a: string, s: string)
    requires '?' in a && a <= s
    ensures Find(s, '?') < |a|
  {
  }

  lemma NamesDiffer()
    ensures "amount" != "label" && "amount" != "message" && "label" != "message"
    ensures !("req-" <= "amount") && !("req-" <= "label")
  {
    assert |"amount"| == 6 && |"label"| == 5 && |"message"| == 7;
    assert "req-"[0] == 'r' && "amount"[0] == 'a' && "label"[0] == 'l';
  }

  lemma GetTwo(amount: Option<string>, memo: Option<string>)
    ensures var ps := (if amount.Some? then [Param("amount", amount.value)] else [])
                      + (if memo.Some? then [Param("label", memo.value)] else []);
            Get(ps, "amount") == amount && Get(ps, "label") == memo && Get(ps, "message") == None && DemandsNothing(ps)
  {
    NamesDiffer();
    if amount.Some? && memo.Some? {
      var a, m := Param("amount", amount.value), Param("label", memo.value);
      assert [a] + [m] == [a, m] && [a, m][1..] == [m] && [m][1..] == [];
      assert Get([m], "message") == Get([], "message");
    } else if amount.Some? {
      var a := Param("amount", amount.value);
      assert [a] + [] == [a] && [a][1..] == [];
    } else if memo.Some? {
      var m := Param("label", memo.value);
      assert [] + [m] == [m] && [m][1..] == [];
    }
  }

  /** The parameters read back as the amount and the label. */
  lemma ParamsMean(round: nat -> nat, r: PaymentRequest)
    requires Rounding(round)
    requires r.amountSat.Some? ==> 1 <= r.amountSat.value <= MAX_SAFE
    requires r.memo != Some("")
    ensures var ps := ParamsOf(r); DemandsNothing(ps) && AmountOf(round, ps) == r.amountSat && LabelOf(ps) == r.memo
  {
    if r.amountSat.Some? {
      GetTwo(Some(FormatAmount(r.amountSat.value, Btc)), r.memo);
      FormatParses(round, r.amountSat.value, Btc);
      FormatIsTight(r.amountSat.value, Btc);
    } else {
      GetTwo(None, r.memo);
    }
  }

  /** A built URI reaches the parser whole. */
  lemma ReachesWhole(round: nat -> nat, address: string, query: string)
    requires address != "" && Tight(IsJsSpace, address) && (query != "" ==> !IsJsSpace(query[|query| - 1]))
    ensures var parts := SplitQuery(WithQuery(address, query)[8..]);
            Parsed(round, WithQuery(address, query)) == ParsedUri(round, parts.0, parts.1)
  {
    BuiltIsTight(address, query);
  }

  /** What is read of an address part is no longer than it, and as long only when it has no escape. */
  lemma AddressShrinks(round: nat -> nat, addressPart: string, queryPart: string)
    requires ParsedUri(round, addressPart, queryPart).Some?
    ensures var address := ParsedUri(round, addressPart, queryPart).value.address;
            |address| <= |addressPart| && ('%' in addressPart ==> |address| < |addressPart|)
  {
    TrimShortens(DecodeComponent(addressPart).value);
  }

  lemma {:induction false} TrimEndShortens(s: string)
    ensures |TrimEnd(IsJsSpace, s)| <= |s|
  {
    if s != "" && IsJsSpace(s[|s| - 1]) {
      TrimEndShortens(s[..|s| - 1]);
    }
  }

  lemma {:induction false} TrimShortens(s: string)
    ensures |JsTrim(s)| <= |s|
  {
    TrimStartShortens(s);
    TrimEndShortens(TrimStart(IsJsSpace, s));
  }

  lemma {:induction false} TrimStartShortens(s: string)
    ensures |TrimStart(IsJsSpace, s)| <= |s|
  {
    if s != "" && IsJsSpace(s[0]) {
      TrimStartShortens(s[1..]);
    }
  }

  /** With the parts whole and no escape, the request comes back. */
  lemma PartsParse(round: nat -> nat, r: PaymentRequest)
    requires Rounding(round) && Carries(r.address)
    requires r.amountSat.Some? ==> 1 <= r.amountSat.value <= MAX_SAFE
    requires r.memo != Some("")
    ensures ParsedUri(round, r.address, FormatParams(ParamsOf(r))) == Some(r)
  {
    ParamsRoundTrip(ParamsOf(r));
    ParamsMean(round, r);
    TrimOfTight(IsJsSpace, r.address);
  }

  /** A built URI parses to its request exactly when its address is one a URI can carry. */
  lemma RoundTrip(round: nat -> nat, r: PaymentRequest)
    requires Rounding(round)
    requires r.amountSat.Some? ==> 1 <= r.amountSat.value <= MAX_SAFE
    requires r.memo != Some("")
    ensures Parsed(round, Built(r)) == Some(r) <==> Carries(r.address)
  {
    var query := FormatParams(ParamsOf(r));
    if Parsed(round, Built(r)) == Some(r) {
      ParsedIsTight(round, Built(r));
    }
    if r.address != "" && Tight(IsJsSpace, r.address) {
      QueryEnds(ParamsOf(r));
      ReachesWhole(round, r.address, query);
      SplitBuilt(r.address, query);
      var parts := SplitQuery(Built(r)[8..]);
      if Carries(r.address) {
        PartsParse(round, r);
      } else if ParsedUri(round, parts.0, parts.1).Some? {
        AddressShrinks(round, parts.0, parts.1);
      }
    }
  }
}
