/**
 * The option sanitisers of the theme (`KawaiiUltra\Theme\Utils\Sanitization`).
 * Each one is a pure function of its argument; the WordPress function a sanitiser
 * prefers when it exists (`sanitize_hex_color`, `absint`, `sanitize_key`) is an input.
 */
module Sanitization {
  import opened Php
  import opened Strings

  // ---------------------------------------------------------------------------
  // sanitize_checkbox
  // ---------------------------------------------------------------------------

  /** `isset($checked) && true === $checked`: only the boolean `true` is accepted. */
  function SanitizeCheckbox(checked: Value): (r: bool)
    ensures r ==> Truthy(checked)
    ensures r <==> checked.Bool? && checked.b
  {
    checked != Null && checked == Bool(true)
  }

  /** Loosely true values such as 1, '1' and 'on' are still rejected. */
  lemma CheckboxIsStrict()
    ensures !SanitizeCheckbox(Int(1)) && !SanitizeCheckbox(Str("1")) && !SanitizeCheckbox(Str("on"))
    ensures !SanitizeCheckbox(Null) && !SanitizeCheckbox(Bool(false))
    ensures SanitizeCheckbox(Bool(true))
  {
  }

  // ---------------------------------------------------------------------------
  // sanitize_select
  // ---------------------------------------------------------------------------

  /**
   * The sanitised key when the control offers it as a choice, otherwise the
   * setting's default. `choices` is the control's choice map (key to label).
   */
  function SanitizeSelect(input: string, sanitizeKey: string -> string, choices: map<string, string>, default: string): (r: string)
    ensures sanitizeKey(input) in choices ==> r == sanitizeKey(input)
    ensures sanitizeKey(input) !in choices ==> r == default
    ensures r in choices || r == default
  {
    var key := sanitizeKey(input);
    if key in choices then key else default
  }

  /**
   * When `sanitize_key` is idempotent and the default is itself a valid key,
   * re-sanitising a sanitised selection changes nothing.
   */
  lemma SelectIdempotent(input: string, sanitizeKey: string -> string, choices: map<string, string>, default: string)
    requires forall s :: sanitizeKey(sanitizeKey(s)) == sanitizeKey(s)
    requires sanitizeKey(default) == default
    ensures var once := SanitizeSelect(input, sanitizeKey, choices, default);
      SanitizeSelect(once, sanitizeKey, choices, default) == once
  {
    var once := SanitizeSelect(input, sanitizeKey, choices, default);
    if sanitizeKey(input) in choices {
      assert sanitizeKey(once) == once;
    } else {
      assert once == default;
    }
  }

  // ---------------------------------------------------------------------------
  // sanitize_hex_color
  // ---------------------------------------------------------------------------

  /** `sanitize_hex_color`: WordPress's own function when it exists, the fallback otherwise. */
  function SanitizeHexColor(hasCore: bool, core: string -> string, color: string): (r: string)
    ensures !hasCore ==> r == SanitizeHexColorFallback(color)
    ensures hasCore ==> r == core(color)
  {
    if hasCore then core(color) else SanitizeHexColorFallback(color)
  }

  /** A hex colour the fallback can return: '' or '#' and exactly 3 or 6 hex digits. */
  predicate WellFormedHexColor(s: string) {
    s == "" || ((|s| == 4 || |s| == 7) && s[0] == '#' && CtypeXdigit(s[1..]))
  }

  /**
   * The fallback: strip every leading '#', accept only 3 or 6 hex digits and put
   * a single '#' back in front; anything else is ''.
   */
  function SanitizeHexColorFallback(color: string): (r: string)
    ensures WellFormedHexColor(r)
    ensures r != "" ==> |r| - 1 <= |color| && r[1..] == color[|color| - (|r| - 1)..]
    ensures r != "" ==> forall i :: 0 <= i < |color| - (|r| - 1) ==> color[i] == '#'
  {
    var digits := LTrim(color, '#');
    if CtypeXdigit(digits) && (|digits| == 3 || |digits| == 6) then
      assert ("#" + digits)[1..] == digits;
      "#" + digits
    else
      ""
  }

  /** A string not starting with the trimmed character is its own trim. */
  lemma LTrimNoLeading(s: string, c: char)
    requires s == [] || s[0] != c
    ensures LTrim(s, c) == s
  {
  }

  /** Any number of leading '#' in front of 3 or 6 hex digits gives '#' and those digits. */
  lemma {:induction false} HexAcceptsHashedDigits(hashes: nat, digits: string)
    requires CtypeXdigit(digits) && (|digits| == 3 || |digits| == 6)
    ensures SanitizeHexColorFallback(seq(hashes, _ => '#') + digits) == "#" + digits
  {
    var s := seq(hashes, _ => '#') + digits;
    var t := LTrim(s, '#');
    assert digits[0] != '#';
    assert t == s[|s| - |digits|..] == digits;
  }

  /** Empty input and a lone '#' are rejected: no digits are left to accept. */
  lemma HexRejectsEmpty()
    ensures SanitizeHexColorFallback("") == ""
    ensures SanitizeHexColorFallback("#") == ""
  {
    HexRejectsAllHashes(0);
    HexRejectsAllHashes(1);
    assert seq(1, _ => '#') == "#";
  }

  /** A string of nothing but '#' is rejected. */
  lemma HexRejectsAllHashes(hashes: nat)
    ensures SanitizeHexColorFallback(seq(hashes, _ => '#')) == ""
  {
    var s := seq(hashes, _ => '#');
    var t := LTrim(s, '#');
    assert t == [];
  }

  /** Sanitising the fallback's output returns it unchanged. */
  lemma HexIdempotent(color: string)
    ensures SanitizeHexColorFallback(SanitizeHexColorFallback(color)) == SanitizeHexColorFallback(color)
  {
    var r := SanitizeHexColorFallback(color);
    if r == "" {
      assert LTrim("", '#') == "";
    } else {
      assert r == seq(1, _ => '#') + r[1..];
      HexAcceptsHashedDigits(1, r[1..]);
    }
  }

  // ---------------------------------------------------------------------------
  // sanitize_integer
  // ---------------------------------------------------------------------------

  /** `abs((int) $input)` on an input already cast to an integer. */
  function SanitizeIntegerFallback(n: int): (r: nat)
    ensures r == n || r == -n
  {
    if n < 0 then -n else n
  }

  /** `absint` when it exists, the fallback over PHP's `(int)` cast otherwise. */
  function SanitizeInteger(hasAbsint: bool, absint: Value -> nat, intCast: Value -> int, input: Value): (r: nat)
    ensures hasAbsint ==> r == absint(input)
    ensures !hasAbsint ==> r == SanitizeIntegerFallback(intCast(input))
  {
    if hasAbsint then absint(input) else SanitizeIntegerFallback(intCast(input))
  }

  /** On an integer input the fallback is the absolute value: non-negative, and fixed on its own output. */
  lemma IntegerFallbackIsAbs(intCast: Value -> int, absint: Value -> nat, n: int)
    requires intCast(Int(n)) == n
    ensures SanitizeInteger(false, absint, intCast, Int(n)) == (if n < 0 then -n else n)
    ensures SanitizeIntegerFallback(SanitizeIntegerFallback(n)) == SanitizeIntegerFallback(n)
    ensures SanitizeIntegerFallback(-n) == SanitizeIntegerFallback(n)
  {
  }

  // ---------------------------------------------------------------------------
  // sanitize_array
  // ---------------------------------------------------------------------------

  /** `array_map($callback, $input)`: every value mapped, keys and order kept. */
  function SanitizeArray<K, V, W>(input: Entries<K, V>, callback: V -> W): (r: Entries<K, W>)
    ensures |r| == |input|
    ensures Keys(r) == Keys(input)
    ensures forall i :: 0 <= i < |input| ==> r[i].1 == callback(input[i].1)
  {
    if input == [] then [] else [(input[0].0, callback(input[0].1))] + SanitizeArray(input[1..], callback)
  }

  /** Mapping twice is mapping once with the composed callback. */
  lemma {:induction false} SanitizeArrayComposes<K, V, W, X>(input: Entries<K, V>, f: V -> W, g: W -> X)
    ensures SanitizeArray(SanitizeArray(input, f), g) == SanitizeArray(input, v => g(f(v)))
  {
    if input != [] {
      SanitizeArrayComposes(input[1..], f, g);
      assert SanitizeArray(input, f)[1..] == SanitizeArray(input[1..], f);
    }
  }

  /** An idempotent callback makes the array sanitiser idempotent. */
  lemma SanitizeArrayIdempotent<K, V>(input: Entries<K, V>, callback: V -> V)
    requires forall v :: callback(callback(v)) == callback(v)
    ensures SanitizeArray(SanitizeArray(input, callback), callback) == SanitizeArray(input, callback)
  {
    var once := SanitizeArray(input, callback);
    var twice := SanitizeArray(once, callback);
    assert Keys(twice) == Keys(once);
    forall i | 0 <= i < |twice| ensures twice[i] == once[i] {
      assert twice[i].0 == Keys(twice)[i] == Keys(once)[i] == once[i].0;
    }
  }
}
