/**
 * The string-valued enumerations of the encoding configuration and the
 * value-to-member lookup they share. Looking up a value that names no member
 * raises a `ValueError` listing every valid value, in declaration order.
 */
module Enums {
  import opened PyValues

  /** The values of `members`, in declaration order. */
  function Values<E>(members: seq<E>, valueOf: E -> string): (vs: seq<string>)
    ensures |vs| == |members|
    ensures forall i :: 0 <= i < |members| ==> vs[i] == valueOf(members[i])
  {
    if members == [] then [] else [valueOf(members[0])] + Values(members[1..], valueOf)
  }

  /** The first member, in declaration order, whose value is `v`. */
  function Find<E>(members: seq<E>, valueOf: E -> string, v: string): (r: Option<E>)
    ensures r.Some? ==> r.value in members && valueOf(r.value) == v
    ensures r.None? <==> forall i :: 0 <= i < |members| ==> valueOf(members[i]) != v
  {
    if members == [] then None
    else if valueOf(members[0]) == v then Some(members[0])
    else Find(members[1..], valueOf, v)
  }

  /**
   * Calling an enumeration class with a value: the member whose value it is,
   * or the `ValueError` of the enumeration's missing-value hook.
   */
  function Lookup<E>(enumName: string, members: seq<E>, valueOf: E -> string, v: string): (r: Result<E>)
    ensures r.Ok? ==> r.value in members && valueOf(r.value) == v
    ensures r.Err? <==> v !in Values(members, valueOf)
    ensures r.Err? ==> r.error == ValueError(v, enumName, Values(members, valueOf))
  {
    match Find(members, valueOf, v)
    case Some(m) => Ok(m)
    case None => Err(ValueError(v, enumName, Values(members, valueOf)))
  }

  /** No two members share a value. */
  ghost predicate DistinctValues<E>(members: seq<E>, valueOf: E -> string) {
    forall i, j :: 0 <= i < |members| && 0 <= j < |members| && valueOf(members[i]) == valueOf(members[j]) ==> i == j
  }

  /** When values are distinct, looking up a member's own value gives that member back. */
  lemma {:induction false} LookupRoundTrip<E>(enumName: string, members: seq<E>, valueOf: E -> string, k: nat)
    requires k < |members|
    requires DistinctValues(members, valueOf)
    ensures Lookup(enumName, members, valueOf, valueOf(members[k])) == Ok(members[k])
  {
  }

  /**
   * The first member carrying a value is the one found, also when a later
   * member repeats that value.
   */
  lemma {:induction false} FindEarliest<E>(members: seq<E>, valueOf: E -> string, k: nat)
    requires k < |members|
    requires forall i :: 0 <= i < k ==> valueOf(members[i]) != valueOf(members[k])
    ensures Find(members, valueOf, valueOf(members[k])) == Some(members[k])
  {
    if k > 0 {
      assert valueOf(members[0]) != valueOf(members[k]);
      var rest := members[1..];
      assert rest[k - 1] == members[k];
      forall i | 0 <= i < k - 1
        ensures valueOf(rest[i]) != valueOf(rest[k - 1])
      {
        assert rest[i] == members[i + 1];
      }
      FindEarliest(rest, valueOf, k - 1);
    }
  }

  /** The Python rendering of a list of strings, `['a', 'b']`, for values without quotes. */
  function ListRepr(xs: seq<string>): string {
    "[" + JoinQuoted(xs) + "]"
  }

  function JoinQuoted(xs: seq<string>): string {
    if xs == [] then ""
    else if |xs| == 1 then "'" + xs[0] + "'"
    else "'" + xs[0] + "', " + JoinQuoted(xs[1..])
  }

  /** The message of the missing-value `ValueError`. */
  function Message(e: Error): (r: string)
    requires e.ValueError?
    ensures e.enumName == "TruncationStrategy" && e.validValues == ["only_first", "only_second", "longest_first", "do_not_truncate"] ==>
              r == e.value + " is not a valid " + "TruncationStrategy" + ", please select one of "
                   + "[" + "'only_first', " + "'only_second', " + "'longest_first', " + "'do_not_truncate'" + "]"
    ensures e.enumName == "PaddingStrategy" && e.validValues == ["longest", "max_length", "do_not_pad"] ==>
              r == e.value + " is not a valid " + "PaddingStrategy" + ", please select one of "
                   + "['longest', 'max_length', 'do_not_pad']"
  {
    TruncationValuesRepr();
    PaddingValuesRepr();
    e.value + " is not a valid " + e.enumName + ", please select one of " + ListRepr(e.validValues)
  }

  lemma TruncationValuesRepr()
    ensures ListRepr(["only_first", "only_second", "longest_first", "do_not_truncate"])
            == "[" + "'only_first', " + "'only_second', " + "'longest_first', " + "'do_not_truncate'" + "]"
  {
    var xs := ["only_first", "only_second", "longest_first", "do_not_truncate"];
    assert xs[1..] == ["only_second", "longest_first", "do_not_truncate"];
    assert xs[1..][1..] == ["longest_first", "do_not_truncate"];
    assert xs[1..][1..][1..] == ["do_not_truncate"];
    var last := JoinQuoted(xs[1..][1..][1..]);
    assert last == "'do_not_truncate'";
    var third := JoinQuoted(xs[1..][1..]);
    assert third == "'longest_first', " + last;
    var second := JoinQuoted(xs[1..]);
    assert second == "'only_second', " + third;
    assert JoinQuoted(xs) == "'only_first', " + second;
  }

  lemma PaddingValuesRepr()
    ensures ListRepr(["longest", "max_length", "do_not_pad"]) == "['longest', 'max_length', 'do_not_pad']"
  {
    var xs := ["longest", "max_length", "do_not_pad"];
    assert xs[1..] == ["max_length", "do_not_pad"];
    assert xs[1..][1..] == ["do_not_pad"];
  }

  // ---------------------------------------------------------------------------
  // TruncationStrategy

  datatype TruncationStrategy = OnlyFirst | OnlySecond | LongestFirst | DoNotTruncate {
    function Value(): string {
      match this
      case OnlyFirst => "only_first"
      case OnlySecond => "only_second"
      case LongestFirst => "longest_first"
      case DoNotTruncate => "do_not_truncate"
    }
  }

  const TruncationMembers: seq<TruncationStrategy> := [OnlyFirst, OnlySecond, LongestFirst, DoNotTruncate]

  function TruncationValue(m: TruncationStrategy): string { m.Value() }

  /** `TruncationStrategy(v)`. */
  function ParseTruncationStrategy(v: string): (r: Result<TruncationStrategy>)
    ensures r.Ok? <==> v in {"only_first", "only_second", "longest_first", "do_not_truncate"}
    ensures r.Ok? ==> r.value.Value() == v
    ensures r.Err? ==> r.error == ValueError(v, "TruncationStrategy",
                                              ["only_first", "only_second", "longest_first", "do_not_truncate"])
  {
    Lookup("TruncationStrategy", TruncationMembers, TruncationValue, v)
  }

  /** Every member is recovered from its value, and distinct members have distinct values. */
  lemma TruncationRoundTrip(m: TruncationStrategy, n: TruncationStrategy)
    ensures ParseTruncationStrategy(m.Value()) == Ok(m)
    ensures m.Value() == n.Value() ==> m == n
  {
    var k := match m case OnlyFirst => 0 case OnlySecond => 1 case LongestFirst => 2 case DoNotTruncate => 3;
    LookupRoundTrip("TruncationStrategy", TruncationMembers, TruncationValue, k);
  }

  // ---------------------------------------------------------------------------
  // PaddingStrategy

  datatype PaddingStrategy = Longest | MaxLength | DoNotPad {
    function Value(): string {
      match this
      case Longest => "longest"
      case MaxLength => "max_length"
      case DoNotPad => "do_not_pad"
    }
  }

  const PaddingMembers: seq<PaddingStrategy> := [Longest, MaxLength, DoNotPad]

  function PaddingValue(m: PaddingStrategy): string { m.Value() }

  /** `PaddingStrategy(v)`. */
  function ParsePaddingStrategy(v: string): (r: Result<PaddingStrategy>)
    ensures r.Ok? <==> v in {"longest", "max_length", "do_not_pad"}
    ensures r.Ok? ==> r.value.Value() == v
    ensures r.Err? ==> r.error == ValueError(v, "PaddingStrategy", ["longest", "max_length", "do_not_pad"])
  {
    Lookup("PaddingStrategy", PaddingMembers, PaddingValue, v)
  }

  /** Every member is recovered from its value, and distinct members have distinct values. */
  lemma PaddingRoundTrip(m: PaddingStrategy, n: PaddingStrategy)
    ensures ParsePaddingStrategy(m.Value()) == Ok(m)
    ensures m.Value() == n.Value() ==> m == n
  {
    var k := match m case Longest => 0 case MaxLength => 1 case DoNotPad => 2;
    LookupRoundTrip("PaddingStrategy", PaddingMembers, PaddingValue, k);
  }
}
