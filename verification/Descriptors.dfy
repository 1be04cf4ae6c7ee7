/**
 The receive and change descriptors of a watch-only wallet (crates/wallet-core/src/keys.rs:495-587).

 What the descriptor parser makes of a text is taken as given.
 */
module Descriptors {
  import opened Wrappers
  import opened Text

  datatype AddressType = P2pk | P2pkh | P2wpkh | NestedP2wpkh | P2tr

  /** A parsed descriptor: whether it pays to a bare script, and whether it carries keys to spend with. */
  datatype Shape = Shape(bareScript: bool, secrets: bool)

  datatype Keychains = Single(descriptor: string) | Hd(external: string, internal: string)

  datatype DescriptorError = CarriesPrivateKeys | NoAccountLayout | NotADescriptor | BareScripts

  const RECEIVE := "/0/*"
  const CHANGE := "/1/*"
  const BRANCHES := "<0;1>"

  const XPRV_PREFIXES := ["xprv", "tprv", "yprv", "zprv", "uprv", "vprv"]

  // ---------------------------------------------------------------- finding and replacing

  predicate StandsAt(s: string, pat: string, i: nat) {
    i + |pat| <= |s| && s[i..i + |pat|] == pat
  }

  predicate Contains(s: string, pat: string) {
    exists i :: 0 <= i <= |s| && StandsAt(s, pat, i)
  }

  /** `str::replace`: from the left, one after another. */
  function Replace(s: string, pat: string, rep: string): string
    requires pat != ""
    decreases |s|
  {
    if s == "" then ""
    else if pat <= s then rep + Replace(s[|pat|..], pat, rep)
    else [s[0]] + Replace(s[1..], pat, rep)
  }

  /** The text before the first `c`. */
  function Before(s: string, c: char): string {
    if s == "" || s[0] == c then "" else [s[0]] + Before(s[1..], c)
  }

  // ---------------------------------------------------------------- the descriptors

  function Wrapping(t: AddressType): Option<(string, string)> {
    match t
    case P2pkh => Some(("pkh(", ")"))
    case NestedP2wpkh => Some(("sh(wpkh(", "))"))
    case P2wpkh => Some(("wpkh(", ")"))
    case P2tr => Some(("tr(", ")"))
    case P2pk => None
  }

  predicate HasSecrets(parse: string -> Option<Shape>, d: string) {
    (exists i :: 0 <= i < |XPRV_PREFIXES| && Contains(d, XPRV_PREFIXES[i])) || (parse(d).Some? && parse(d).value.secrets)
  }

  /** The source, trimmed, without its checksum. */
  function Bare(white: char -> bool, source: string): string {
    Before(Trim(white, source), '#')
  }

  function KeychainsOf(parse: string -> Option<Shape>, bare: string, t: AddressType): Result<Keychains, DescriptorError> {
    if '(' in bare && HasSecrets(parse, bare) then Err(CarriesPrivateKeys)
    else if '(' !in bare then
      match Wrapping(t)
      case None => Err(NoAccountLayout)
      case Some((open, close)) => Ok(Hd(open + bare + RECEIVE + close, open + bare + CHANGE + close))
    else if parse(bare).None? then Err(NotADescriptor)
    else if parse(bare).value.bareScript then Err(BareScripts)
    else if Contains(bare, BRANCHES) then Ok(Hd(Replace(bare, BRANCHES, "0"), Replace(bare, BRANCHES, "1")))
    else if Contains(bare, RECEIVE) then Ok(Hd(bare, Replace(bare, RECEIVE, CHANGE)))
    else Ok(Single(bare))
  }

  function WatchOnlyDescriptors(white: char -> bool, parse: string -> Option<Shape>, source: string, t: AddressType):
    Result<Keychains, DescriptorError>
  {
    KeychainsOf(parse, Bare(white, source), t)
  }

  /** What is refused, and why: keys to spend with, a bare key for a type without accounts, what is no descriptor, or bare scripts. */
  lemma RefusedExactly(parse: string -> Option<Shape>, bare: string, t: AddressType)
    ensures var ks, called := KeychainsOf(parse, bare, t), '(' in bare;
            && (ks == Err(CarriesPrivateKeys) <==> called && HasSecrets(parse, bare))
            && (ks == Err(NoAccountLayout) <==> !called && t == P2pk)
            && (ks == Err(NotADescriptor) <==> called && !HasSecrets(parse, bare) && parse(bare).None?)
            && (ks == Err(BareScripts) <==> called && !HasSecrets(parse, bare) && parse(bare).Some? && parse(bare).value.bareScript)
            && (ks.Ok? && ks.value.Single? ==> called && ks.value.descriptor == bare && !Contains(bare, BRANCHES) && !Contains(bare, RECEIVE))
  {
  }

  /** A secret is what the parser finds, or any of the six ways an extended private key begins, anywhere in the text. */
  lemma SecretsAre(parse: string -> Option<Shape>, d: string)
    ensures Contains(d, "xprv") || Contains(d, "tprv") || Contains(d, "yprv") || Contains(d, "zprv") || Contains(d, "uprv")
            || Contains(d, "vprv") || (parse(d).Some? && parse(d).value.secrets)
            <==> HasSecrets(parse, d)
  {
    assert XPRV_PREFIXES[0] == "xprv" && XPRV_PREFIXES[1] == "tprv" && XPRV_PREFIXES[2] == "yprv";
    assert XPRV_PREFIXES[3] == "zprv" && XPRV_PREFIXES[4] == "uprv" && XPRV_PREFIXES[5] == "vprv";
  }

  /**
   A bare account key: receive on its branch 0 and change on its branch 1, in the script of the
   address type chosen, nested or native segwit, taproot, or legacy.
   */
  lemma AccountKeychains(parse: string -> Option<Shape>, key: string, t: AddressType)
    requires '(' !in key && t != P2pk
    ensures var receive, change := key + "/0/*", key + "/1/*";
            KeychainsOf(parse, key, t) ==
            Ok(if t == P2pkh then Hd("pkh(" + receive + ")", "pkh(" + change + ")")
               else if t == P2wpkh then Hd("wpkh(" + receive + ")", "wpkh(" + change + ")")
               else if t == P2tr then Hd("tr(" + receive + ")", "tr(" + change + ")")
               else Hd("sh(" + ("wpkh(" + receive + ")") + ")", "sh(" + ("wpkh(" + change + ")") + ")"))
  {
    assert "sh(wpkh(" + key + "/0/*" + "))" == "sh(" + ("wpkh(" + (key + "/0/*") + ")") + ")";
    assert "sh(wpkh(" + key + "/1/*" + "))" == "sh(" + ("wpkh(" + (key + "/1/*") + ")") + ")";
    assert "pkh(" + key + "/0/*" + ")" == "pkh(" + (key + "/0/*") + ")" && "pkh(" + key + "/1/*" + ")" == "pkh(" + (key + "/1/*") + ")";
    assert "wpkh(" + key + "/0/*" + ")" == "wpkh(" + (key + "/0/*") + ")" && "wpkh(" + key + "/1/*" + ")" == "wpkh(" + (key + "/1/*") + ")";
    assert "tr(" + key + "/0/*" + ")" == "tr(" + (key + "/0/*") + ")" && "tr(" + key + "/1/*" + ")" == "tr(" + (key + "/1/*") + ")";
  }

  /** The text without the space around it, and without a checksum and what follows it. */
  lemma {:induction false} BareIs(white: char -> bool, source: string)
    ensures var text, bare := Trim(white, source), Bare(white, source);
            '#' !in bare && (bare == text || bare + "#" <= text)
  {
    BeforeIs(Trim(white, source), '#');
  }

  lemma {:induction false} BeforeIs(s: string, c: char)
    ensures c !in Before(s, c) && (Before(s, c) == s || Before(s, c) + [c] <= s)
  {
    if s != "" && s[0] != c {
      BeforeIs(s[1..], c);
      assert s == [s[0]] + s[1..];
    }
  }

  // ---------------------------------------------------------------- where a receive path stands

  predicate ReceiveAt(s: string, i: nat) {
    i + 3 < |s| && s[i] == '/' && s[i + 1] == '0' && s[i + 2] == '/' && s[i + 3] == '*'
  }

  predicate Receives(s: string) {
    exists i :: 0 <= i < |s| && ReceiveAt(s, i)
  }

  lemma ReceiveStands(s: string, i: nat)
    ensures StandsAt(s, RECEIVE, i) <==> ReceiveAt(s, i)
  {
  }

  lemma ReceivesContains(s: string)
    ensures Receives(s) <==> Contains(s, RECEIVE)
  {
    forall i: nat | i <= |s|
      ensures StandsAt(s, RECEIVE, i) <==> ReceiveAt(s, i)
    {
      ReceiveStands(s, i);
    }
  }

  lemma ReceiveFirst(s: string)
    ensures RECEIVE <= s <==> ReceiveAt(s, 0)
  {
  }

  /** One character shorter at the front. */
  lemma ReceivesTail(s: string)
    requires s != ""
    ensures Receives(s) <==> ReceiveAt(s, 0) || Receives(s[1..])
  {
    if Receives(s) && !ReceiveAt(s, 0) {
      var i :| 0 <= i < |s| && ReceiveAt(s, i);
      assert ReceiveAt(s[1..], i - 1);
    }
    if Receives(s[1..]) {
      var i :| 0 <= i < |s[1..]| && ReceiveAt(s[1..], i);
      assert ReceiveAt(s, i + 1);
    }
  }

  // ---------------------------------------------------------------- the twin by substitution

  /** What the twin has at a place: the keychain's own digit turned, anything else as it was. */
  function Turned(s: string, i: nat): char
    requires i < |s|
  {
    if i >= 1 && ReceiveAt(s, i - 1) then '1' else s[i]
  }

  predicate IsTwin(s: string, t: string) {
    |t| == |s| && forall i :: 0 <= i < |s| ==> t[i] == Turned(s, i)
  }

  lemma TwinAhead(s: string, k: nat, t: string, front: string)
    requires k <= |s| && IsTwin(s[k..], t) && |front| == k
    requires forall i :: 0 <= i < k ==> front[i] == Turned(s, i)
    requires k < |s| ==> k >= 1 && !ReceiveAt(s, k - 1)
    ensures IsTwin(s, front + t)
  {
  }

  lemma {:induction false} TwinIsTurned(s: string)
    ensures IsTwin(s, Replace(s, RECEIVE, CHANGE))
    decreases |s|
  {
    if s == "" {
    } else if RECEIVE <= s {
      ReceiveFirst(s);
      TwinIsTurned(s[4..]);
      TwinAhead(s, 4, Replace(s[4..], RECEIVE, CHANGE), CHANGE);
    } else {
      ReceiveFirst(s);
      TwinIsTurned(s[1..]);
      TwinAhead(s, 1, Replace(s[1..], RECEIVE, CHANGE), [s[0]]);
    }
  }

  /** Nothing turned receives any more. */
  lemma TwinReceivesNothing(s: string, t: string)
    requires IsTwin(s, t)
    ensures !Receives(t)
  {
  }

  // ---------------------------------------------------------------- the twins of a branch

  predicate BranchFirst(s: string) {
    |s| >= 5 && s[0] == '<' && s[1] == '0' && s[2] == ';' && s[3] == '1' && s[4] == '>'
  }

  lemma BranchIs(s: string)
    ensures BRANCHES <= s <==> BranchFirst(s)
  {
  }

  /** The two sides of a branch: as long, and apart only where one has 0 and the other 1. */
  predicate Sides(a: string, b: string) {
    |a| == |b| && forall i :: 0 <= i < |a| ==> a[i] == b[i] || (a[i] == '0' && b[i] == '1')
  }

  lemma {:induction false} BranchSides(s: string)
    ensures Sides(Replace(s, BRANCHES, "0"), Replace(s, BRANCHES, "1"))
    ensures Replace(s, BRANCHES, "0") == Replace(s, BRANCHES, "1") <==> !Contains(s, BRANCHES)
    decreases |s|
  {
    if s == "" {
    } else if BRANCHES <= s {
      BranchSides(s[5..]);
      var a, b := Replace(s, BRANCHES, "0"), Replace(s, BRANCHES, "1");
      assert a[0] == '0' && b[0] == '1';
      assert s[0..5] == BRANCHES && StandsAt(s, BRANCHES, 0);
    } else {
      BranchSides(s[1..]);
      var a, b := Replace(s[1..], BRANCHES, "0"), Replace(s[1..], BRANCHES, "1");
      assert ([s[0]] + a)[1..] == a && ([s[0]] + b)[1..] == b;
      ContainsTail(s);
    }
  }

  lemma ContainsTail(s: string)
    requires s != "" && !(BRANCHES <= s)
    ensures Contains(s, BRANCHES) <==> Contains(s[1..], BRANCHES)
  {
    if |s| >= 5 {
      assert s[..5] == s[0..5];
    }
    if Contains(s, BRANCHES) {
      var i :| 0 <= i <= |s| && StandsAt(s, BRANCHES, i);
      assert s[1..][i - 1..i - 1 + 5] == s[i..i + 5];
      assert StandsAt(s[1..], BRANCHES, i - 1);
    }
    if Contains(s[1..], BRANCHES) {
      var i :| 0 <= i <= |s[1..]| && StandsAt(s[1..], BRANCHES, i);
      assert s[1..][i..i + 5] == s[i + 1..i + 1 + 5];
      assert StandsAt(s, BRANCHES, i + 1);
    }
  }

  /** Text with neither `<` nor 1 in it stands in front after the replacing just when it did before. */
  lemma {:induction false} FrontKept(w: string, s: string)
    requires '<' !in w && '1' !in w
    ensures w <= Replace(s, BRANCHES, "1") <==> w <= s
  {
    if w != "" && s != "" {
      var t := Replace(s, BRANCHES, "1");
      BranchIs(s);
      if BRANCHES <= s {
        assert t[0] == '1' && w[0] != '1' && w[0] != s[0];
      } else {
        FrontKept(w[1..], s[1..]);
        PrefixStep(w, s);
        PrefixStep(w, t);
        assert t[1..] == Replace(s[1..], BRANCHES, "1");
      }
    }
  }

  lemma PrefixStep(w: string, s: string)
    requires w != "" && s != ""
    ensures w <= s <==> w[0] == s[0] && w[1..] <= s[1..]
  {
  }

  /** Choosing a side neither makes nor unmakes a receive path. */
  lemma {:induction false} SideReceives(s: string)
    ensures Receives(Replace(s, BRANCHES, "1")) <==> Receives(s)
    decreases |s|
  {
    if s != "" {
      var t := Replace(s, BRANCHES, "1");
      BranchIs(s);
      ReceivesTail(t);
      if BRANCHES <= s {
        SideReceives(s[5..]);
        assert t[1..] == Replace(s[5..], BRANCHES, "1");
        SkipBranch(s);
      } else {
        SideReceives(s[1..]);
        assert t[1..] == Replace(s[1..], BRANCHES, "1");
        ReceivesTail(s);
        FrontKept(RECEIVE, s);
        ReceiveFirst(s);
        ReceiveFirst(t);
      }
    }
  }

  lemma SkipBranch(s: string)
    requires BranchFirst(s)
    ensures Receives(s) <==> Receives(s[5..])
  {
    if Receives(s) {
      var i :| 0 <= i < |s| && ReceiveAt(s, i);
      assert i >= 5;
      assert ReceiveAt(s[5..], i - 5);
    }
    if Receives(s[5..]) {
      var i :| 0 <= i < |s[5..]| && ReceiveAt(s[5..], i);
      assert ReceiveAt(s, i + 5);
    }
  }

  // ---------------------------------------------------------------- the twins of a bare key

  lemma WrappedReceives(open: string, bare: string, close: string)
    requires '/' !in open && '/' !in close && '*' !in close
    ensures Receives(open + bare + CHANGE + close) <==> Receives(bare)
  {
    var t := open + bare + CHANGE + close;
    var k, n := |open|, |bare|;
    assert t[k + n] == '/' && t[k + n + 1] == '1' && t[k + n + 2] == '/' && t[k + n + 3] == '*';
    assert forall i :: 0 <= i < k ==> t[i] != '/';
    assert forall i :: 0 <= i < n ==> t[k + i] == bare[i];
    assert forall i :: k + n + 4 <= i < |t| ==> t[i] != '/' && t[i] != '*';
    if Receives(t) {
      var i :| 0 <= i < |t| && ReceiveAt(t, i);
      assert k <= i && i + 3 < k + n;
      assert bare[i - k] == t[i] && bare[i - k + 1] == t[i + 1] && bare[i - k + 2] == t[i + 2] && bare[i - k + 3] == t[i + 3];
      assert ReceiveAt(bare, i - k);
    }
    if Receives(bare) {
      var i :| 0 <= i < n && ReceiveAt(bare, i);
      assert ReceiveAt(t, k + i);
    }
  }

  // ---------------------------------------------------------------- what comes of a source

  /** Receive paths that the change keychain is left with: none, but for a branch's or a bare key's own. */
  predicate LeavesReceive(bare: string) {
    Contains(bare, RECEIVE) && ('(' !in bare || Contains(bare, BRANCHES))
  }

  lemma {:induction false} TwinsOf(parse: string -> Option<Shape>, bare: string, t: AddressType)
    requires KeychainsOf(parse, bare, t).Ok? && KeychainsOf(parse, bare, t).value.Hd?
    ensures var d := KeychainsOf(parse, bare, t).value;
            d.internal != d.external && (Contains(d.internal, RECEIVE) <==> LeavesReceive(bare))
  {
    var d := KeychainsOf(parse, bare, t).value;
    ReceivesContains(bare);
    ReceivesContains(d.internal);
    if '(' !in bare {
      var (open, close) := Wrapping(t).value;
      WrappedReceives(open, bare, close);
      var at := |open| + |bare| + 1;
      assert d.internal[at] == '1' && d.external[at] == '0';
    } else if Contains(bare, BRANCHES) {
      BranchSides(bare);
      SideReceives(bare);
    } else {
      TwinIsTurned(bare);
      TwinReceivesNothing(bare, d.internal);
    }
  }

  /** A change descriptor never is the receive one, and has a receive path in it exactly when the source left it one. */
  lemma {:induction false} ChangeIsChange(white: char -> bool, parse: string -> Option<Shape>, source: string, t: AddressType)
    requires var ks := WatchOnlyDescriptors(white, parse, source, t); ks.Ok? && ks.value.Hd?
    ensures var d := WatchOnlyDescriptors(white, parse, source, t).value;
            d.internal != d.external && (Contains(d.internal, RECEIVE) <==> LeavesReceive(Bare(white, source)))
  {
    TwinsOf(parse, Bare(white, source), t);
  }

  /** The change twin of a receive descriptor differs from it exactly at the keychain's own digit, in every key. */
  lemma {:induction false} TwinsDifferThere(white: char -> bool, parse: string -> Option<Shape>, source: string, t: AddressType)
    requires var ks := WatchOnlyDescriptors(white, parse, source, t); '(' in Bare(white, source) && ks.Ok? && ks.value.Hd?
    ensures var bare, d := Bare(white, source), WatchOnlyDescriptors(white, parse, source, t).value;
            && Sides(d.external, d.internal)
            && (!Contains(bare, BRANCHES) ==> d.external == bare && IsTwin(bare, d.internal))
  {
    var bare := Bare(white, source);
    if Contains(bare, BRANCHES) {
      BranchSides(bare);
    } else {
      TwinIsTurned(bare);
    }
  }

  // ---------------------------------------------------------------- a source that mixes the two

  /** One cosigner's branch beside another's own receive path. */
  function Mixed(one: string, other: string): string {
    "wsh(multi(1," + one + "/<0;1>/*," + other + "/0/*))"
  }

  lemma MixedShape(one: string, other: string)
    ensures '(' in Mixed(one, other) && Contains(Mixed(one, other), BRANCHES) && Contains(Mixed(one, other), RECEIVE)
  {
    var d := Mixed(one, other);
    assert d[3] == '(';
    assert StandsAt(d, BRANCHES, 13 + |one|);
    assert StandsAt(d, RECEIVE, 21 + |one| + |other|);
  }

  /** Whatever the keys, where the parser takes it as public the change keychain keeps the receive path. */
  lemma {:induction false} MixedSource(parse: string -> Option<Shape>, one: string, other: string, t: AddressType)
    requires parse(Mixed(one, other)) == Some(Shape(false, false)) && !HasSecrets(parse, Mixed(one, other))
    ensures var ks := KeychainsOf(parse, Mixed(one, other), t);
            ks.Ok? && ks.value.Hd? && Contains(ks.value.internal, RECEIVE)
  {
    MixedShape(one, other);
    TwinsOf(parse, Mixed(one, other), t);
  }
}
