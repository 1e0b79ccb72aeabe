/**
 * `ConfigManager` seen as an in-memory store of sections, each mapping
 * keys to string values. Integers are stored as decimal text and booleans
 * as "1" and "0"; that encoding is this model's choice.
 */
module Config {
  import opened Wrappers

  type Section = map<string, string>
  type Store = map<string, Section>

  /** The range of the C++ `int` that `GetInt` and `SetInt` carry. */
  type Int32 = n: int | -0x8000_0000 <= n < 0x8000_0000

  /** A section exists only while it holds at least one key. */
  ghost predicate NoEmptySection(st: Store) {
    forall s :: s in st ==> st[s] != map[]
  }

  /** The value stored under `section`/`key`, if any. */
  function Find(st: Store, section: string, key: string): Option<string> {
    if section in st && key in st[section] then Some(st[section][key]) else None
  }

  /** Storing `value` under `section`/`key` touches no other entry. */
  function Put(st: Store, section: string, key: string, value: string): (r: Store)
    ensures Find(r, section, key) == Some(value)
    ensures forall s, k :: s != section || k != key ==> Find(r, s, k) == Find(st, s, k)
    ensures r.Keys == st.Keys + {section}
    ensures NoEmptySection(st) ==> NoEmptySection(r)
  {
    var entries := if section in st then st[section] else map[];
    st[section := entries[key := value]]
  }

  /**
   * Removing `section`/`key` touches no other entry; a section left with
   * no keys disappears.
   */
  function Erase(st: Store, section: string, key: string): (r: Store)
    ensures Find(r, section, key) == None
    ensures forall s, k :: s != section || k != key ==> Find(r, s, k) == Find(st, s, k)
    ensures r.Keys <= st.Keys
    ensures NoEmptySection(st) ==> NoEmptySection(r)
  {
    if section in st && key in st[section] then
      var rest := st[section] - {key};
      assert forall k :: k in st[section] && k != key ==> k in rest;
      if rest == map[] then st - {section} else st[section := rest]
    else st
  }

  /** Removing a whole section touches no other section. */
  function EraseSection(st: Store, section: string): (r: Store)
    ensures section !in r
    ensures forall k :: Find(r, section, k) == None
    ensures forall s, k :: s != section ==> Find(r, s, k) == Find(st, s, k)
    ensures r.Keys == st.Keys - {section}
    ensures NoEmptySection(st) ==> NoEmptySection(r)
  {
    st - {section}
  }

  // ---------------------------------------------------------------------
  // Text encoding of integers and booleans
  // ---------------------------------------------------------------------

  predicate IsDigit(c: char) {
    '0' <= c <= '9'
  }

  predicate AllDigits(t: string) {
    forall i :: 0 <= i < |t| ==> IsDigit(t[i])
  }

  function DigitChar(d: nat): (c: char)
    requires d < 10
    ensures IsDigit(c)
  {
    (48 + d) as char
  }

  function DigitValue(c: char): (d: nat)
    requires IsDigit(c)
    ensures d < 10
  {
    c as int - 48
  }

  /** The decimal digits of `n`, most significant first, no leading zero. */
  function NatToText(n: nat): (t: string)
    ensures t != [] && AllDigits(t)
    ensures |t| > 1 ==> t[0] != '0'
  {
    if n < 10 then [DigitChar(n)] else NatToText(n / 10) + [DigitChar(n % 10)]
  }

  /** The number a string of decimal digits denotes. */
  function DigitsValue(t: string): nat
    requires AllDigits(t)
  {
    if t == [] then 0 else DigitsValue(t[..|t| - 1]) * 10 + DigitValue(t[|t| - 1])
  }

  lemma {:induction false} NatTextRoundTrip(n: nat)
    ensures DigitsValue(NatToText(n)) == n
  {
    if n >= 10 {
      NatTextRoundTrip(n / 10);
      var t := NatToText(n);
      assert t[..|t| - 1] == NatToText(n / 10);
      assert DigitValue(t[|t| - 1]) == n % 10;
    }
  }

  /** Decimal text with a leading `-` for negative numbers. */
  function IntToText(n: int): string {
    if n < 0 then "-" + NatToText(-n) else NatToText(n)
  }

  /** Decimal text, optionally after a `-`; anything else does not parse. */
  function TextToInt(t: string): (r: Option<int>)
    ensures r.Some? <==> t != [] && (AllDigits(t) || (|t| > 1 && t[0] == '-' && AllDigits(t[1..])))
    ensures r.Some? && r.value < 0 ==> t[0] == '-'
  {
    if |t| > 1 && t[0] == '-' && AllDigits(t[1..]) then Some(-(DigitsValue(t[1..]) as int))
    else if t != [] && AllDigits(t) then Some(DigitsValue(t))
    else None
  }

  lemma IntTextRoundTrip(n: int)
    ensures TextToInt(IntToText(n)) == Some(n)
  {
    NatTextRoundTrip(if n < 0 then -n else n);
    if n < 0 {
      assert IntToText(n)[1..] == NatToText(-n);
    }
  }

  function BoolToText(b: bool): string {
    if b then "1" else "0"
  }

  function TextToBool(t: string): (r: Option<bool>)
    ensures r.Some? <==> t == "1" || t == "0"
  {
    if t == "1" then Some(true) else if t == "0" then Some(false) else None
  }

  lemma BoolTextRoundTrip(b: bool)
    ensures TextToBool(BoolToText(b)) == Some(b)
  {
  }

  /** The elements of `items`, each once, in some order. */
  method Enumerate(items: set<string>) returns (r: seq<string>)
    ensures forall x :: x in r <==> x in items
    ensures forall i, j :: 0 <= i < j < |r| ==> r[i] != r[j]
  {
    r := [];
    var rest := items;
    while rest != {}
      invariant forall x :: x in items <==> x in rest || x in r
      invariant forall x :: x in r ==> x !in rest
      invariant forall i, j :: 0 <= i < j < |r| ==> r[i] != r[j]
      decreases rest
    {
      var x :| x in rest;
      r := r + [x];
      rest := rest - {x};
    }
  }

  // ---------------------------------------------------------------------
  // The manager
  // ---------------------------------------------------------------------

  class ConfigManager {
    var store: Store

    ghost predicate Valid()
      reads this
    {
      NoEmptySection(store)
    }

    /** A manager holding no entries. */
    constructor ()
      ensures Valid() && store == map[]
    {
      store := map[];
    }

    function HasEntry(section: string, key: string): (r: bool)
      reads this
      ensures r <==> section in store && key in store[section]
    {
      Find(store, section, key).Some?
    }

    /** The stored text, or `defaultVal` when the key is absent. */
    function GetString(section: string, key: string, defaultVal: string := ""): (r: string)
      reads this
      ensures HasEntry(section, key) ==> r == store[section][key]
      ensures !HasEntry(section, key) ==> r == defaultVal
    {
      Find(store, section, key).GetOr(defaultVal)
    }

    /**
     * The stored integer, or `defaultVal` when the key is absent or its
     * text is not a decimal number in the range of `int`.
     */
    function GetInt(section: string, key: string, defaultVal: Int32 := 0): (r: Int32)
      reads this
      ensures !HasEntry(section, key) ==> r == defaultVal
      ensures HasEntry(section, key) && TextToInt(store[section][key]).Some? &&
              -0x8000_0000 <= TextToInt(store[section][key]).value < 0x8000_0000 ==>
        r as int == TextToInt(store[section][key]).value
      ensures r != defaultVal ==>
        HasEntry(section, key) && TextToInt(store[section][key]) == Some(r as int)
    {
      match Find(store, section, key)
      case None => defaultVal
      case Some(t) =>
        match TextToInt(t)
        case Some(n) => if -0x8000_0000 <= n < 0x8000_0000 then n as Int32 else defaultVal
        case None => defaultVal
    }

    /** The stored boolean, or `defaultVal` when the key is absent or not "1"/"0". */
    function GetBool(section: string, key: string, defaultVal: bool := false): (r: bool)
      reads this
      ensures !HasEntry(section, key) ==> r == defaultVal
      ensures HasEntry(section, key) && TextToBool(store[section][key]).Some? ==>
        r == TextToBool(store[section][key]).value
      ensures r != defaultVal ==>
        HasEntry(section, key) && TextToBool(store[section][key]) == Some(r)
    {
      match Find(store, section, key)
      case None => defaultVal
      case Some(t) => TextToBool(t).GetOr(defaultVal)
    }

    method SetString(section: string, key: string, value: string)
      requires Valid()
      modifies this
      ensures Valid()
      ensures store == Put(old(store), section, key, value)
      ensures HasEntry(section, key)
      ensures forall d :: GetString(section, key, d) == value
    {
      store := Put(store, section, key, value);
    }

    method SetInt(section: string, key: string, value: Int32)
      requires Valid()
      modifies this
      ensures Valid()
      ensures store == Put(old(store), section, key, IntToText(value))
      ensures HasEntry(section, key)
      ensures forall d :: GetInt(section, key, d) == value
    {
      store := Put(store, section, key, IntToText(value));
      IntTextRoundTrip(value);
    }

    method SetBool(section: string, key: string, value: bool)
      requires Valid()
      modifies this
      ensures Valid()
      ensures store == Put(old(store), section, key, BoolToText(value))
      ensures HasEntry(section, key)
      ensures forall d :: GetBool(section, key, d) == value
    {
      store := Put(store, section, key, BoolToText(value));
    }

    /** Removes one entry; the result says whether it existed. */
    method DeleteEntry(section: string, key: string) returns (ok: bool)
      requires Valid()
      modifies this
      ensures Valid()
      ensures ok == old(HasEntry(section, key))
      ensures store == Erase(old(store), section, key)
      ensures !HasEntry(section, key)
    {
      ok := HasEntry(section, key);
      store := Erase(store, section, key);
    }

    /** Removes a section and all its keys; the result says whether it existed. */
    method DeleteSection(section: string) returns (ok: bool)
      requires Valid()
      modifies this
      ensures Valid()
      ensures ok == (section in old(store))
      ensures store == EraseSection(old(store), section)
      ensures forall k :: !HasEntry(section, k)
    {
      ok := section in store;
      store := EraseSection(store, section);
    }

    /** Every section that holds a key, each once. */
    method GetSections() returns (sections: seq<string>)
      ensures forall s :: s in sections <==> s in store
      ensures forall i, j :: 0 <= i < j < |sections| ==> sections[i] != sections[j]
    {
      sections := Enumerate(store.Keys);
    }

    /** Every key of `section`, each once; none for an absent section. */
    method GetKeys(section: string) returns (keys: seq<string>)
      ensures forall k :: k in keys <==> HasEntry(section, k)
      ensures forall i, j :: 0 <= i < j < |keys| ==> keys[i] != keys[j]
    {
      if section in store {
        keys := Enumerate(store[section].Keys);
      } else {
        keys := [];
      }
    }
  }

  /** The scenario of the unit tests, on one store. */
  method ConfigScenario()
  {
    var config := new ConfigManager();
    config.SetString("test", "key", "value");
    assert config.GetString("test", "key") == "value";
    assert config.GetString("test", "nonexistent", "default") == "default";
    config.SetInt("test", "key", 42);
    assert config.GetInt("test", "key") == 42;
    assert config.GetInt("test", "nonexistent", 100) == 100;
    config.SetBool("test", "key", true);
    assert config.GetBool("test", "key");
    assert !config.GetBool("test", "nonexistent", false);
  }
}
