/**
 Key material and watch-only descriptors (crates/wallet-core/src/keys.rs).

 `white` is Rust's White_Space and `lower` its lowercasing of a word; what the descriptor parser
 says is taken as given.
 */
module Keys {
  import opened Wrappers
  import opened Text
  import opened Urls

  datatype KeyMaterial = PrivHex(hex: string) | Wif(wif: string) | Mnemonic(words: string, pass: Option<string>)
                       | WatchOnly(source: string)
  {
    function Secret(): string {
      match this
      case PrivHex(s) => s
      case Wif(s) => s
      case Mnemonic(words, _) => words
      case WatchOnly(s) => s
    }

    function Passphrase(): Option<string> {
      if Mnemonic? then pass else None
    }
  }

  datatype KeyError = PassphraseOnWatchOnly | PassphraseOnSingleKey

  /** A word has something in it, and no space. */
  predicate IsWord(white: char -> bool, w: string) {
    w != "" && forall i :: 0 <= i < |w| ==> !white(w[i])
  }

  predicate AllWords(white: char -> bool, ws: seq<string>) {
    forall i :: 0 <= i < |ws| ==> IsWord(white, ws[i])
  }

  /** What is asked of the two: a plain space is white, and lowercasing a word gives a word, already lowercase. */
  ghost predicate Lowering(white: char -> bool, lower: string -> string) {
    white(' ') && forall w :: IsWord(white, w) ==> IsWord(white, lower(w)) && lower(lower(w)) == lower(w)
  }

  // ---------------------------------------------------------------- words

  /** The length of the run of white, or of other characters, at the front. */
  function Run(white: char -> bool, s: string, value: bool): (n: nat)
    ensures n <= |s| && forall i :: 0 <= i < n ==> white(s[i]) == value
    ensures n < |s| ==> white(s[n]) != value
  {
    if s == "" || white(s[0]) != value then 0 else 1 + Run(white, s[1..], value)
  }

  /** `split_whitespace`. */
  function Words(white: char -> bool, s: string): (ws: seq<string>)
    ensures AllWords(white, ws)
    decreases |s|
  {
    if s == "" then []
    else if white(s[0]) then Words(white, s[1..])
    else
      var n := Run(white, s, false);
      [s[..n]] + Words(white, s[n..])
  }

  function Join(ws: seq<string>): string {
    if ws == [] then "" else if |ws| == 1 then ws[0] else ws[0] + " " + Join(ws[1..])
  }

  function Lowered(lower: string -> string, ws: seq<string>): (r: seq<string>)
    ensures |r| == |ws| && forall i :: 0 <= i < |ws| ==> r[i] == lower(ws[i])
  {
    seq(|ws|, i requires 0 <= i < |ws| => lower(ws[i]))
  }

  function Normalize(white: char -> bool, lower: string -> string, s: string): string {
    Join(Lowered(lower, Words(white, s)))
  }

  lemma {:induction false} RunOfWord(white: char -> bool, w: string, s: string)
    requires (forall i :: 0 <= i < |w| ==> !white(w[i])) && (s != "" ==> white(s[0]))
    ensures Run(white, w + s, false) == |w|
  {
    if w == "" {
      assert w + s == s;
    } else {
      assert (w + s)[1..] == w[1..] + s;
      RunOfWord(white, w[1..], s);
    }
  }

  /** A word, and then what follows a space. */
  lemma FirstWord(white: char -> bool, w: string, s: string)
    requires IsWord(white, w) && white(' ')
    ensures Words(white, w) == [w] && Words(white, w + " " + s) == [w] + Words(white, s)
  {
    RunOfWord(white, w, "");
    assert w + "" == w && w[..|w|] == w && w[|w|..] == "";
    var t := " " + s;
    RunOfWord(white, w, t);
    assert w + " " + s == w + t;
    assert (w + t)[..|w|] == w && (w + t)[|w|..] == t && t[1..] == s;
  }

  /** Joined words split back into themselves, with no space around them. */
  lemma {:induction false} WordsOfJoin(white: char -> bool, ws: seq<string>)
    requires AllWords(white, ws) && white(' ')
    ensures Words(white, Join(ws)) == ws
    ensures Tight(white, Join(ws)) && (ws != [] ==> Join(ws) != "")
  {
    if ws != [] {
      assert IsWord(white, ws[0]);
      FirstWord(white, ws[0], Join(ws[1..]));
      if |ws| > 1 {
        WordsOfJoin(white, ws[1..]);
        assert ws == [ws[0]] + ws[1..];
      }
    }
  }

  /** Normalizing a normalized phrase changes nothing. */
  lemma NormalizeAgain(white: char -> bool, lower: string -> string, s: string)
    requires Lowering(white, lower)
    ensures var t := Normalize(white, lower, s);
            && Words(white, t) == Lowered(lower, Words(white, s))
            && Normalize(white, lower, t) == t && Tight(white, t)
  {
    var ws := Lowered(lower, Words(white, s));
    WordsOfJoin(white, ws);
    assert Lowered(lower, ws) == ws;
  }

  // ---------------------------------------------------------------- parsing

  predicate IsHex(s: string) {
    |s| == 64 && forall i :: 0 <= i < |s| ==> HexValue(s[i]).Some?
  }

  /** An all-ASCII text is as long in bytes as in characters. */
  predicate LooksWatchOnly(s: string) {
    '(' in s || (|s| >= 100 && s[1..4] == "pub" && forall i :: 0 <= i < |s| ==> IsAlnum(s[i]))
  }

  function Parse(white: char -> bool, lower: string -> string, input: string): KeyMaterial {
    var trimmed := Trim(white, input);
    if |Words(white, trimmed)| > 1 then Mnemonic(Normalize(white, lower, trimmed), None)
    else if LooksWatchOnly(trimmed) then WatchOnly(trimmed)
    else if IsHex(trimmed) then PrivHex(trimmed)
    else Wif(trimmed)
  }

  function ParseWithPassphrase(white: char -> bool, lower: string -> string, input: string, passphrase: Option<string>):
    Result<KeyMaterial, KeyError>
  {
    var key := Parse(white, lower, input);
    if passphrase.None? || passphrase.value == "" then Ok(key)
    else if key.WatchOnly? then Err(PassphraseOnWatchOnly)
    else if !key.Mnemonic? then Err(PassphraseOnSingleKey)
    else Ok(Mnemonic(key.Secret(), passphrase))
  }

  /** An extended public key as exported: long, plain, and with `pub` after its first letter. */
  predicate LooksExtended(s: string) {
    && |s| >= 100 && s[1] == 'p' && s[2] == 'u' && s[3] == 'b'
    && forall i :: 0 <= i < |s| ==> 'a' <= s[i] <= 'z' || 'A' <= s[i] <= 'Z' || '0' <= s[i] <= '9'
  }

  predicate HexDigits(s: string) {
    forall i :: 0 <= i < |s| ==> '0' <= s[i] <= '9' || 'a' <= s[i] <= 'f' || 'A' <= s[i] <= 'F'
  }

  /**
   What a text is taken for: two words or more for a phrase; else a descriptor or an extended
   public key for a watch-only source; else 64 hex digits for a raw key; and the rest for WIF.
   A single word is kept as given, without the space around it.
   */
  lemma ParsedAs(white: char -> bool, lower: string -> string, input: string)
    ensures var key, text := Parse(white, lower, input), Trim(white, input);
            var phrase, watch := |Words(white, text)| > 1, '(' in text || LooksExtended(text);
            && (key.Mnemonic? <==> phrase)
            && (key.WatchOnly? <==> !phrase && watch)
            && (key.PrivHex? <==> !phrase && !watch && |text| == 64 && HexDigits(text))
            && (key.Wif? <==> !phrase && !watch && !(|text| == 64 && HexDigits(text)))
            && (!phrase ==> key.Secret() == text && key.Passphrase().None?)
            && (phrase ==> Words(white, key.Secret()) == Words(white, Normalize(white, lower, text)) && key.Passphrase().None?)
  {
    var text := Trim(white, input);
    assert |text| >= 4 ==> text[1..4] == [text[1], text[2], text[3]];
  }

  /** Parsing what was parsed gives the same, a phrase's passphrase aside. */
  lemma ParseSecret(white: char -> bool, lower: string -> string, input: string)
    requires Lowering(white, lower)
    ensures var key := Parse(white, lower, input); Parse(white, lower, key.Secret()) == key
  {
    var trimmed := Trim(white, input);
    TrimIsTight(white, input);
    if |Words(white, trimmed)| > 1 {
      NormalizeAgain(white, lower, trimmed);
      TrimOfTight(white, Normalize(white, lower, trimmed));
    }
  }

  /** Stored and read back, with its passphrase beside it, key material is what it was. */
  lemma KeyRoundTrip(white: char -> bool, lower: string -> string, input: string, passphrase: Option<string>)
    requires Lowering(white, lower)
    ensures var key := ParseWithPassphrase(white, lower, input, passphrase);
            key.Ok? ==> ParseWithPassphrase(white, lower, key.value.Secret(), key.value.Passphrase()) == key
  {
    ParseSecret(white, lower, input);
  }

  /** A passphrase is never dropped: it is refused, or it is in the key; and an empty one is none. */
  lemma PassphraseIsKept(white: char -> bool, lower: string -> string, input: string, passphrase: string)
    ensures var key := ParseWithPassphrase(white, lower, input, Some(passphrase));
            && (key.Ok? && passphrase != "" ==> key.value.Passphrase() == Some(passphrase))
            && (key.Err? <==> passphrase != "" && !Parse(white, lower, input).Mnemonic?)
            && (key == Err(PassphraseOnWatchOnly) <==> passphrase != "" && Parse(white, lower, input).WatchOnly?)
            && (key.Ok? ==> key.value.Secret() == Parse(white, lower, input).Secret())
            && (passphrase == "" ==> key == ParseWithPassphrase(white, lower, input, None))
  {
  }
}
