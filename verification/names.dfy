/** The name/id codec of the benchmark factory: an entity id is rendered as
    `node_<id>`, `topic_<id>` or `service_<id>`, and a name is decoded back to an
    id when it has exactly that shape, with a hash of the name otherwise. */
module Names {
  import opened Wrappers
  import opened Text

  /** C++ `int`. */
  type Int32 = x: int | -0x8000_0000 <= x < 0x8000_0000

  const INT_MAX: int := 0x7FFF_FFFF

  datatype ItemKind = NodeItem | TopicItem | ServiceItem

  function Prefix(kind: ItemKind): string
  {
    match kind
    case NodeItem => "node_"
    case TopicItem => "topic_"
    case ServiceItem => "service_"
  }

  /** `id_to_node_name`, `id_to_topic_name` and `id_to_service_name`: the prefix
      followed by the decimal rendering of the id. */
  function IdToName(kind: ItemKind, id: Int32): (name: string)
    ensures HasPrefix(name, Prefix(kind))
    ensures id >= 0 ==> name[|Prefix(kind)|..] == NatToString(id)
    ensures id < 0 ==> |name| > |Prefix(kind)| && name[|Prefix(kind)|] == '-'
    ensures id < 0 ==> name[|Prefix(kind)|..] == "-" + NatToString(-(id as int))
    ensures id < 0 ==> var magnitude := name[|Prefix(kind)| + 1..];
                       AllDigits(magnitude) && DigitsValue(magnitude) == -(id as int)
  {
    var r := IntToString(id as int);
    assert (Prefix(kind) + r)[|Prefix(kind)|..] == r;
    assert (Prefix(kind) + r)[|Prefix(kind)| + 1..] == r[1..];
    Prefix(kind) + r
  }

  /** The error `std::stoi` throws when the digits do not fit in an `int`. */
  datatype DecodeError = OutOfRange(digits: string)

  /** A full match of `(node|topic|service)_[[:digit:]]+`: the kind and the digits. */
  function MatchItemName(name: string): (r: Option<(ItemKind, string)>)
    ensures r.Some? ==> name == Prefix(r.value.0) + r.value.1
                        && |r.value.1| > 0 && AllDigits(r.value.1)
    ensures r.None? ==> forall kind: ItemKind :: HasPrefix(name, Prefix(kind)) ==>
                          |name| == |Prefix(kind)| || !AllDigits(name[|Prefix(kind)|..])
  {
    if HasPrefix(name, "node_") && |name| > 5 && AllDigits(name[5..]) then Some((NodeItem, name[5..]))
    else if HasPrefix(name, "topic_") && |name| > 6 && AllDigits(name[6..]) then Some((TopicItem, name[6..]))
    else if HasPrefix(name, "service_") && |name| > 8 && AllDigits(name[8..]) then Some((ServiceItem, name[8..]))
    else None
  }

  predicate MatchesItemPattern(name: string)
  {
    MatchItemName(name).Some?
  }

  /** `std::regex_replace` with `(node|topic|service)_` and an empty replacement:
      every occurrence, scanned left to right with the alternatives tried in order,
      is removed. */
  function RemoveItemPrefixes(s: string): string
  {
    if |s| == 0 then ""
    else if HasPrefix(s, "node_") then RemoveItemPrefixes(s[5..])
    else if HasPrefix(s, "topic_") then RemoveItemPrefixes(s[6..])
    else if HasPrefix(s, "service_") then RemoveItemPrefixes(s[8..])
    else [s[0]] + RemoveItemPrefixes(s[1..])
  }

  /** `std::stoi` on a string of digits. */
  function Stoi(digits: string): (r: Result<Int32, DecodeError>)
    requires AllDigits(digits)
    ensures r.Ok? <==> DigitsValue(digits) <= INT_MAX
    ensures r.Ok? ==> r.value == DigitsValue(digits)
  {
    var v := DigitsValue(digits);
    if v <= INT_MAX then Ok(v) else Err(OutOfRange(digits))
  }

  lemma {:induction false} RemoveItemPrefixesOfDigits(d: string)
    requires AllDigits(d)
    ensures RemoveItemPrefixes(d) == d
  {
    if |d| > 0 {
      assert IsDigit(d[0]);
      assert !HasPrefix(d, "node_") && !HasPrefix(d, "topic_") && !HasPrefix(d, "service_") by {
        if |d| >= 5 { assert d[..5][0] == d[0]; }
        if |d| >= 6 { assert d[..6][0] == d[0]; }
        if |d| >= 8 { assert d[..8][0] == d[0]; }
      }
      RemoveItemPrefixesOfDigits(d[1..]);
      assert [d[0]] + d[1..] == d;
    }
  }

  /** On a matching name, the replacement leaves exactly the digits. */
  lemma RemoveItemPrefixesOfMatch(name: string)
    requires MatchesItemPattern(name)
    ensures RemoveItemPrefixes(name) == MatchItemName(name).value.1
  {
    var m := MatchItemName(name).value;
    var p := Prefix(m.0);
    assert name[..|p|] == p && name[|p|..] == m.1;
    FirstCharOfPrefixes(name);
    RemoveItemPrefixesOfDigits(m.1);
  }

  /** The three prefixes start with different letters, so at most one applies. */
  lemma FirstCharOfPrefixes(name: string)
    ensures HasPrefix(name, "node_") ==> |name| > 0 && name[0] == 'n'
    ensures HasPrefix(name, "topic_") ==> |name| > 0 && name[0] == 't'
    ensures HasPrefix(name, "service_") ==> |name| > 0 && name[0] == 's'
  {
    if HasPrefix(name, "node_") { assert name[..5][0] == name[0]; }
    if HasPrefix(name, "topic_") { assert name[..6][0] == name[0]; }
    if HasPrefix(name, "service_") { assert name[..8][0] == name[0]; }
  }

  /** `item_name_to_id`: the number a matching name carries (an error where
      `std::stoi` throws), otherwise `hash(name)` (`std::hash` truncated to `int`). */
  function ItemNameToId(name: string, hash: string -> Int32): (r: Result<Int32, DecodeError>)
    ensures !MatchesItemPattern(name) ==> r == Ok(hash(name))
    ensures MatchesItemPattern(name) ==>
              var digits := MatchItemName(name).value.1;
              (r.Ok? <==> DigitsValue(digits) <= INT_MAX) && (r.Ok? ==> r.value == DigitsValue(digits))
  {
    if MatchesItemPattern(name) then
      RemoveItemPrefixesOfMatch(name);
      Stoi(RemoveItemPrefixes(name))
    else Ok(hash(name))
  }

  /** Every name the encoder produces for a non-negative id matches the pattern. */
  lemma IdToNameMatches(kind: ItemKind, id: Int32)
    requires id >= 0
    ensures MatchItemName(IdToName(kind, id)) == Some((kind, NatToString(id)))
  {
    var name := IdToName(kind, id);
    assert name == Prefix(kind) + NatToString(id);
    assert name[|Prefix(kind)|..] == NatToString(id);
  }

  /** Round trip: decoding the name of a non-negative id gives the id, for every
      kind and whatever the hash. */
  lemma DecodeEncode(kind: ItemKind, id: Int32, hash: string -> Int32)
    requires id >= 0
    ensures ItemNameToId(IdToName(kind, id), hash) == Ok(id)
  {
    IdToNameMatches(kind, id);
    DigitsValueOfNatToString(id);
  }

  /** The name of a negative id carries a minus sign, fails the pattern and
      decodes to the hash of the name instead of the id. */
  lemma NegativeIdFallsBackToHash(kind: ItemKind, id: Int32, hash: string -> Int32)
    requires id < 0
    ensures !MatchesItemPattern(IdToName(kind, id))
    ensures ItemNameToId(IdToName(kind, id), hash) == Ok(hash(IdToName(kind, id)))
  {
    var name := IdToName(kind, id);
    var p := Prefix(kind);
    assert name[..|p|] == p;
    assert name[0] == p[0];
    FirstCharOfPrefixes(name);
    assert |name| > |p| && !IsDigit(name[|p|]);
    assert !AllDigits(name[|p|..]) by { assert name[|p|..][0] == name[|p|]; }
  }

  /** The match is whole-string: these near-misses all take the hash fallback. */
  lemma NearMissesFallBackToHash(hash: string -> Int32)
    ensures ItemNameToId("nodes_3", hash) == Ok(hash("nodes_3"))
    ensures ItemNameToId("node_3a", hash) == Ok(hash("node_3a"))
    ensures ItemNameToId("xnode_3", hash) == Ok(hash("xnode_3"))
    ensures ItemNameToId("node_", hash) == Ok(hash("node_"))
  {
    assert !AllDigits("3a"[..]) by { assert !IsDigit("node_3a"[6]); }
    assert !AllDigits("node_3a"[5..]) by { assert "node_3a"[5..][1] == 'a'; }
  }

  /** Leading zeros collapse, so two different names decode to the same id. */
  lemma LeadingZerosCollapse(hash: string -> Int32)
    ensures ItemNameToId("topic_01", hash) == Ok(1)
    ensures ItemNameToId("topic_1", hash) == Ok(1)
  {
    assert "topic_01"[6..] == "01";
    assert "topic_1"[6..] == "1";
    assert DigitsValue("01") == 1 by {
      assert "01"[..1] == "0";
      assert "0"[..0] == "";
    }
    assert DigitsValue("1") == 1 by { assert "1"[..0] == ""; }
  }

  /** Digits beyond `INT_MAX` make `std::stoi` throw instead of decoding. */
  lemma OverflowIsAnError(hash: string -> Int32)
    ensures ItemNameToId("node_" + NatToString(INT_MAX + 1), hash).Err?
  {
    var name := "node_" + NatToString(INT_MAX + 1);
    assert name[5..] == NatToString(INT_MAX + 1);
    DigitsValueOfNatToString(INT_MAX + 1);
  }
}
