/**
 * The dashboard's figures over the fetched participant list: the counters,
 * the kilograms collected, the deliveries of the current day, and the three
 * groupings (by unit, by food type, by user type) that feed the charts.
 * Every figure is a total function of the list; a `reduce` over the list is
 * a recursion on its last element, so the figures add up in list order.
 */
module Statistics {
  import opened Wrappers
  import opened Strings
  import opened Domain

  // ---------------------------------------------------------------- counters

  /** `participants.filter(p => p?.bracelet_delivered).length`. */
  function DeliveredCount(ps: seq<Participant>): (r: nat)
    ensures r <= |ps|
  {
    if ps == [] then 0
    else DeliveredCount(ps[..|ps| - 1]) + (if ps[|ps| - 1].bracelet_delivered then 1 else 0)
  }

  /** The indices of the delivered records. */
  function DeliveredIndices(ps: seq<Participant>): set<nat>
  {
    set i: nat | i < |ps| && ps[i].bracelet_delivered
  }

  /** The delivered count is the number of records whose bracelet was delivered (the `status` field plays no part). */
  lemma {:induction false} DeliveredCountIsIndexCount(ps: seq<Participant>)
    ensures DeliveredCount(ps) == |DeliveredIndices(ps)|
  {
    if ps != [] {
      var n := |ps| - 1;
      DeliveredCountIsIndexCount(ps[..n]);
      var before := DeliveredIndices(ps[..n]);
      assert DeliveredIndices(ps) == before + (if ps[n].bracelet_delivered then {n} else {});
      assert n !in before;
    }
  }

  /** `totalInscritos - totalEntregues`. */
  function PendingCount(ps: seq<Participant>): (r: nat)
    ensures r <= |ps|
    ensures r == |ps| <==> forall i :: 0 <= i < |ps| ==> !ps[i].bracelet_delivered
  {
    DeliveredCountIsIndexCount(ps);
    NoneDeliveredIffEmpty(ps);
    |ps| - DeliveredCount(ps)
  }

  lemma NoneDeliveredIffEmpty(ps: seq<Participant>)
    ensures (forall i :: 0 <= i < |ps| ==> !ps[i].bracelet_delivered) <==> DeliveredIndices(ps) == {}
  {
    if DeliveredIndices(ps) != {} {
      var i :| i in DeliveredIndices(ps);
      assert ps[i].bracelet_delivered;
    }
    if exists i :: 0 <= i < |ps| && ps[i].bracelet_delivered {
      var i :| 0 <= i < |ps| && ps[i].bracelet_delivered;
      assert (i as nat) in DeliveredIndices(ps);
    }
  }

  /** Delivered and pending records together make up the whole list. */
  lemma DeliveredPlusPending(ps: seq<Participant>)
    ensures DeliveredCount(ps) + PendingCount(ps) == |ps|
    ensures 0 <= DeliveredCount(ps) <= |ps|
    ensures (forall i :: 0 <= i < |ps| ==> !ps[i].bracelet_delivered) ==> PendingCount(ps) == |ps|
  {
    DeliveredCountIsIndexCount(ps);
    if forall i :: 0 <= i < |ps| ==> !ps[i].bracelet_delivered {
      assert DeliveredIndices(ps) == {};
    }
  }

  /** `participants.reduce((acc, p) => acc + (p?.food_kg || 0), 0)`. */
  function TotalKg(ps: seq<Participant>): (r: real)
    ensures (forall i :: 0 <= i < |ps| ==> ps[i].food_kg >= 0.0) ==> r >= 0.0
  {
    if ps == [] then 0.0 else TotalKg(ps[..|ps| - 1]) + ps[|ps| - 1].food_kg
  }

  /**
   * `new Date().toISOString().split('T')[0]`: the text before the first 'T'
   * of the timestamp, which for an ISO timestamp is its UTC `YYYY-MM-DD` date.
   */
  function DatePart(iso: string): (r: string)
    ensures IsPrefix(r, iso)
    ensures forall i :: 0 <= i < |r| ==> r[i] != 'T'
    ensures |r| == |iso| || iso[|r|] == 'T'
  {
    if iso == [] || iso[0] == 'T' then [] else [iso[0]] + DatePart(iso[1..])
  }

  /** The filter of `entreguesHoje`: delivered, with a non-empty `delivery_at` starting with `day`. */
  predicate DeliveredOn(p: Participant, day: string)
  {
    p.bracelet_delivered && Truthy(p.delivery_at) && IsPrefix(day, p.delivery_at.value)
  }

  /** `entreguesHoje`, for the current timestamp `nowIso` passed in. */
  function DeliveredToday(ps: seq<Participant>, nowIso: string): (r: nat)
    ensures r <= DeliveredCount(ps)
  {
    if ps == [] then 0
    else
      DeliveredToday(ps[..|ps| - 1], nowIso)
      + (if DeliveredOn(ps[|ps| - 1], DatePart(nowIso)) then 1 else 0)
  }

  /** The positions counted by `entreguesHoje`. */
  function TodayIndices(ps: seq<Participant>, nowIso: string): set<nat>
  {
    set i: nat | i < |ps| && DeliveredOn(ps[i], DatePart(nowIso))
  }

  /**
   * The count of today's deliveries is the number of positions whose record
   * is delivered and whose `delivery_at` starts with today's date.
   */
  lemma {:induction false} DeliveredTodayIsIndexCount(ps: seq<Participant>, nowIso: string)
    ensures DeliveredToday(ps, nowIso) == |TodayIndices(ps, nowIso)|
  {
    if ps != [] {
      var n := |ps| - 1;
      DeliveredTodayIsIndexCount(ps[..n], nowIso);
      var before := TodayIndices(ps[..n], nowIso);
      assert TodayIndices(ps, nowIso) == before + (if DeliveredOn(ps[n], DatePart(nowIso)) then {n} else {});
      assert n !in before;
    }
  }

  function Ind(b: bool): nat { if b then 1 else 0 }

  /** Replacing one record changes each figure by what that record contributes. */
  lemma {:induction false} ReplaceRecord(ps: seq<Participant>, i: nat, x: Participant, nowIso: string)
    requires i < |ps|
    ensures DeliveredCount(ps[i := x]) as int
      == DeliveredCount(ps) - Ind(ps[i].bracelet_delivered) + Ind(x.bracelet_delivered)
    ensures TotalKg(ps[i := x]) == TotalKg(ps) - ps[i].food_kg + x.food_kg
    ensures DeliveredToday(ps[i := x], nowIso) as int
      == DeliveredToday(ps, nowIso) - Ind(DeliveredOn(ps[i], DatePart(nowIso))) + Ind(DeliveredOn(x, DatePart(nowIso)))
  {
    ReplaceCount(ps, i, x);
    ReplaceKg(ps, i, x);
    ReplaceToday(ps, i, x, nowIso);
  }

  lemma {:induction false} ReplaceCount(ps: seq<Participant>, i: nat, x: Participant)
    requires i < |ps|
    ensures DeliveredCount(ps[i := x]) as int
      == DeliveredCount(ps) - Ind(ps[i].bracelet_delivered) + Ind(x.bracelet_delivered)
  {
    var n := |ps| - 1;
    var qs := ps[i := x];
    if i == n {
      assert qs[..n] == ps[..n];
    } else {
      assert qs[..n] == ps[..n][i := x];
      ReplaceCount(ps[..n], i, x);
    }
  }

  lemma {:induction false} ReplaceKg(ps: seq<Participant>, i: nat, x: Participant)
    requires i < |ps|
    ensures TotalKg(ps[i := x]) == TotalKg(ps) - ps[i].food_kg + x.food_kg
  {
    var n := |ps| - 1;
    var qs := ps[i := x];
    if i == n {
      assert qs[..n] == ps[..n];
    } else {
      assert qs[..n] == ps[..n][i := x];
      ReplaceKg(ps[..n], i, x);
    }
  }

  lemma {:induction false} ReplaceToday(ps: seq<Participant>, i: nat, x: Participant, nowIso: string)
    requires i < |ps|
    ensures DeliveredToday(ps[i := x], nowIso) as int
      == DeliveredToday(ps, nowIso) - Ind(DeliveredOn(ps[i], DatePart(nowIso))) + Ind(DeliveredOn(x, DatePart(nowIso)))
  {
    var n := |ps| - 1;
    var qs := ps[i := x];
    if i == n {
      assert qs[..n] == ps[..n];
    } else {
      assert qs[..n] == ps[..n][i := x];
      ReplaceToday(ps[..n], i, x, nowIso);
    }
  }

  // --------------------------------------------------------------- groupings

  /**
   * A grouping: what `Object.entries` of the accumulator object yields, as
   * (key, value) pairs in the order the keys were first added.
   */
  type Entry = (string, real)

  function KeysOf(g: seq<Entry>): (r: seq<string>)
  {
    seq(|g|, i requires 0 <= i < |g| => g[i].0)
  }

  predicate NoDup(s: seq<string>)
  {
    forall i, j :: 0 <= i < j < |s| ==> s[i] != s[j]
  }

  /** The sum of the amounts recorded under key `k`. */
  function AmountFor(es: seq<Entry>, k: string): real
  {
    if es == [] then 0.0
    else AmountFor(es[..|es| - 1], k) + (if es[|es| - 1].0 == k then es[|es| - 1].1 else 0.0)
  }

  function TotalAmount(es: seq<Entry>): real
  {
    if es == [] then 0.0 else TotalAmount(es[..|es| - 1]) + es[|es| - 1].1
  }

  lemma {:induction false} AmountForConcat(a: seq<Entry>, b: seq<Entry>, k: string)
    ensures AmountFor(a + b, k) == AmountFor(a, k) + AmountFor(b, k)
    ensures TotalAmount(a + b) == TotalAmount(a) + TotalAmount(b)
  {
    if b == [] {
      assert a + b == a;
    } else {
      var n := |b| - 1;
      assert (a + b)[..|a + b| - 1] == a + b[..n];
      AmountForConcat(a, b[..n], k);
    }
  }

  lemma KeysOfConcat(a: seq<Entry>, b: seq<Entry>)
    ensures KeysOf(a + b) == KeysOf(a) + KeysOf(b)
  {
  }

  /**
   * `acc[k] = (acc[k] || 0) + v`: add `v` to the entry for `k` when there is
   * one, otherwise add a new entry for `k` at the end.
   */
  function Bump(g: seq<Entry>, k: string, v: real): seq<Entry>
  {
    if g == [] then [(k, v)]
    else if g[0].0 == k then [(k, g[0].1 + v)] + g[1..]
    else [g[0]] + Bump(g[1..], k, v)
  }

  /** `entries.reduce((acc, [k, v]) => { acc[k] = (acc[k] || 0) + v; return acc }, {})`. */
  function Tally(es: seq<Entry>): seq<Entry>
  {
    if es == [] then [] else Bump(Tally(es[..|es| - 1]), es[|es| - 1].0, es[|es| - 1].1)
  }

  lemma KeysOfInit(g: seq<Entry>)
    requires g != []
    ensures KeysOf(g[..|g| - 1]) == KeysOf(g)[..|g| - 1]
    ensures KeysOf(g) == KeysOf(g[..|g| - 1]) + [g[|g| - 1].0]
  {
  }

  lemma {:induction false} BumpKeys(g: seq<Entry>, k: string, v: real)
    ensures KeysOf(Bump(g, k, v)) == if k in KeysOf(g) then KeysOf(g) else KeysOf(g) + [k]
  {
    if g != [] {
      assert g == [g[0]] + g[1..];
      KeysOfConcat([g[0]], g[1..]);
      if g[0].0 == k {
        KeysOfConcat([(k, g[0].1 + v)], g[1..]);
        assert KeysOf(g)[0] == k;
      } else {
        BumpKeys(g[1..], k, v);
        KeysOfConcat([g[0]], Bump(g[1..], k, v));
      }
    }
  }

  lemma {:induction false} BumpAmount(g: seq<Entry>, k: string, v: real, key: string)
    ensures AmountFor(Bump(g, k, v), key) == AmountFor(g, key) + (if key == k then v else 0.0)
    ensures TotalAmount(Bump(g, k, v)) == TotalAmount(g) + v
  {
    if g == [] {
      assert [(k, v)][..0] == [];
    } else {
      assert g == [g[0]] + g[1..];
      AmountForConcat([g[0]], g[1..], key);
      assert [g[0]][..0] == [];
      if g[0].0 == k {
        AmountForConcat([(k, g[0].1 + v)], g[1..], key);
        assert [(k, g[0].1 + v)][..0] == [];
      } else {
        BumpAmount(g[1..], k, v, key);
        AmountForConcat([g[0]], Bump(g[1..], k, v), key);
      }
    }
  }

  /** Each key occurs once in a grouping, and exactly the keys of the entries occur. */
  lemma {:induction false} TallyKeys(es: seq<Entry>)
    ensures NoDup(KeysOf(Tally(es)))
    ensures forall k :: k in KeysOf(Tally(es)) <==> k in KeysOf(es)
  {
    if es != [] {
      var n := |es| - 1;
      TallyKeys(es[..n]);
      BumpKeys(Tally(es[..n]), es[n].0, es[n].1);
      KeysOfInit(es);
    }
  }

  /** The value under each key is the sum of the amounts the entries bring to that key. */
  lemma {:induction false} TallyAmount(es: seq<Entry>, k: string)
    ensures AmountFor(Tally(es), k) == AmountFor(es, k)
  {
    if es != [] {
      var n := |es| - 1;
      TallyAmount(es[..n], k);
      BumpAmount(Tally(es[..n]), es[n].0, es[n].1, k);
    }
  }

  /** Grouping loses nothing: the values add up to the sum of all amounts. */
  lemma {:induction false} TallyTotal(es: seq<Entry>)
    ensures TotalAmount(Tally(es)) == TotalAmount(es)
  {
    if es != [] {
      var n := |es| - 1;
      TallyTotal(es[..n]);
      BumpAmount(Tally(es[..n]), es[n].0, es[n].1, "");
    }
  }

  /** In a grouping with distinct keys, the amount for an entry's key is that entry's value. */
  lemma {:induction false} AmountForDistinct(g: seq<Entry>, i: nat)
    requires NoDup(KeysOf(g)) && i < |g|
    ensures AmountFor(g, g[i].0) == g[i].1
  {
    var n := |g| - 1;
    KeysOfInit(g);
    if i < n {
      AmountForDistinct(g[..n], i);
      assert KeysOf(g)[i] != KeysOf(g)[n];
    } else {
      forall m | 0 <= m < n ensures KeysOf(g[..n])[m] != g[n].0 {
        assert KeysOf(g)[m] != KeysOf(g)[n];
      }
      AmountForAbsent(g[..n], g[n].0);
    }
  }

  lemma {:induction false} AmountForAbsent(g: seq<Entry>, k: string)
    requires k !in KeysOf(g)
    ensures AmountFor(g, k) == 0.0
  {
    if g != [] {
      KeysOfInit(g);
      AmountForAbsent(g[..|g| - 1], k);
    }
  }

  /** Key `a` shows up in `s` before key `b` does. */
  ghost predicate OccursBefore(s: seq<string>, a: string, b: string)
  {
    exists p :: 0 <= p < |s| && s[p] == a && b !in s[..p + 1]
  }

  /** A grouping lists its keys in the order they first appear in the entries. */
  lemma {:induction false} TallyFirstSeen(es: seq<Entry>)
    ensures forall i, j :: 0 <= i < j < |Tally(es)| ==>
      OccursBefore(KeysOf(es), Tally(es)[i].0, Tally(es)[j].0)
  {
    if es != [] {
      var n := |es| - 1;
      var g := Tally(es[..n]);
      var k := es[n].0;
      var s := KeysOf(es);
      var s0 := KeysOf(es[..n]);
      TallyFirstSeen(es[..n]);
      TallyKeys(es[..n]);
      BumpKeys(g, k, es[n].1);
      KeysOfInit(es);
      var g' := Tally(es);
      assert KeysOf(g') == if k in KeysOf(g) then KeysOf(g) else KeysOf(g) + [k];
      forall i, j | 0 <= i < j < |g'|
        ensures OccursBefore(s, g'[i].0, g'[j].0)
      {
        assert g'[i].0 == KeysOf(g')[i] && g'[j].0 == KeysOf(g')[j];
        if j < |g| {
          assert KeysOf(g')[i] == KeysOf(g)[i] && KeysOf(g')[j] == KeysOf(g)[j];
          OccursBeforeExtend(s0, k, g[i].0, g[j].0);
        } else {
          assert k !in KeysOf(g);
          assert g'[j].0 == k;
          OccursBeforeNew(s0, KeysOf(g)[i], k);
        }
      }
    }
  }

  lemma OccursBeforeExtend(s0: seq<string>, k: string, a: string, b: string)
    requires OccursBefore(s0, a, b)
    ensures OccursBefore(s0 + [k], a, b)
  {
    var p :| 0 <= p < |s0| && s0[p] == a && b !in s0[..p + 1];
    assert (s0 + [k])[..p + 1] == s0[..p + 1];
  }

  lemma OccursBeforeNew(s0: seq<string>, a: string, k: string)
    requires a in s0 && k !in s0
    ensures OccursBefore(s0 + [k], a, k)
  {
    var p :| 0 <= p < |s0| && s0[p] == a;
    assert (s0 + [k])[..p + 1] == s0[..p + 1];
  }

  /** A count grouping: one entry worth 1 per key. */
  function Ones(keys: seq<string>): (r: seq<Entry>)
  {
    seq(|keys|, i requires 0 <= i < |keys| => (keys[i], 1.0))
  }

  lemma {:induction false} OnesAmount(keys: seq<string>, k: string)
    ensures AmountFor(Ones(keys), k) == multiset(keys)[k] as real
    ensures TotalAmount(Ones(keys)) == |keys| as real
    ensures KeysOf(Ones(keys)) == keys
  {
    if keys != [] {
      var n := |keys| - 1;
      assert Ones(keys)[..n] == Ones(keys[..n]);
      assert keys == keys[..n] + [keys[n]];
      OnesAmount(keys[..n], k);
    }
  }

  /**
   * Counting keys by grouping: the counts add up to the number of keys,
   * each key's count is how often it occurs, the keys are distinct and in
   * first-seen order.
   */
  lemma CountGrouping(keys: seq<string>)
    ensures TotalAmount(Tally(Ones(keys))) == |keys| as real
    ensures forall k :: AmountFor(Tally(Ones(keys)), k) == multiset(keys)[k] as real
    ensures NoDup(KeysOf(Tally(Ones(keys))))
    ensures forall k :: k in KeysOf(Tally(Ones(keys))) <==> k in keys
    ensures forall i, j :: 0 <= i < j < |Tally(Ones(keys))| ==>
      OccursBefore(keys, Tally(Ones(keys))[i].0, Tally(Ones(keys))[j].0)
  {
    var es := Ones(keys);
    OnesAmount(keys, "");
    TallyTotal(es);
    forall k ensures AmountFor(Tally(es), k) == multiset(keys)[k] as real {
      TallyAmount(es, k);
      OnesAmount(keys, k);
    }
    TallyKeys(es);
    TallyFirstSeen(es);
  }

  // -------------------------------------------------- the three groupings

  const NoUnit := "Não Informada"
  const DefaultUserType := "Aluno(a)"

  /** `p?.unit || 'Não Informada'`. */
  function UnitKey(p: Participant): string
  {
    NonEmptyOr(p.unit, NoUnit)
  }

  function UnitKeys(ps: seq<Participant>): seq<string>
  {
    seq(|ps|, i requires 0 <= i < |ps| => UnitKey(ps[i]))
  }

  /** `unitCounts`. */
  function UnitCounts(ps: seq<Participant>): seq<Entry>
  {
    Tally(Ones(UnitKeys(ps)))
  }

  /** `p?.user_type || 'Aluno(a)'`. */
  function UserTypeKey(p: Participant): string
  {
    OrElse(p.user_type, DefaultUserType)
  }

  function UserTypeKeys(ps: seq<Participant>): seq<string>
  {
    seq(|ps|, i requires 0 <= i < |ps| => UserTypeKey(ps[i]))
  }

  /** `userTypeCounts`. */
  function UserTypeCounts(ps: seq<Participant>): seq<Entry>
  {
    Tally(Ones(UserTypeKeys(ps)))
  }

  /** The records `foodTypeCounts` looks at: delivered, with a non-empty food type. */
  predicate CountsFood(p: Participant)
  {
    p.bracelet_delivered && Truthy(p.food_type)
  }

  function FoodEntries(ps: seq<Participant>): seq<Entry>
  {
    if ps == [] then []
    else
      FoodEntries(ps[..|ps| - 1]) + FoodEntry(ps[|ps| - 1])
  }

  /** What one record brings to `foodTypeCounts`. */
  function FoodEntry(p: Participant): seq<Entry>
  {
    if CountsFood(p) then [(p.food_type.value, p.food_kg)] else []
  }

  /** `foodTypeCounts`: kilograms per food type. */
  function FoodTypeKg(ps: seq<Participant>): seq<Entry>
  {
    Tally(FoodEntries(ps))
  }

  /** The kilograms brought by the records of `foodTypeCounts`. */
  function DeliveredFoodKg(ps: seq<Participant>): (r: real)
  {
    if ps == [] then 0.0
    else DeliveredFoodKg(ps[..|ps| - 1]) + (if CountsFood(ps[|ps| - 1]) then ps[|ps| - 1].food_kg else 0.0)
  }

  /** Unit counts add up to the list length, and each unit's count is the number of its records ("" counting as 'Não Informada'). */
  lemma UnitCountsSpec(ps: seq<Participant>)
    ensures TotalAmount(UnitCounts(ps)) == |ps| as real
    ensures forall k :: AmountFor(UnitCounts(ps), k) == multiset(UnitKeys(ps))[k] as real
    ensures forall i :: 0 <= i < |ps| && ps[i].unit == "" ==> NoUnit in KeysOf(UnitCounts(ps))
    ensures NoDup(KeysOf(UnitCounts(ps)))
    ensures forall i, j :: 0 <= i < j < |UnitCounts(ps)| ==>
      OccursBefore(UnitKeys(ps), UnitCounts(ps)[i].0, UnitCounts(ps)[j].0)
  {
    CountGrouping(UnitKeys(ps));
    forall i | 0 <= i < |ps| && ps[i].unit == ""
      ensures NoUnit in KeysOf(UnitCounts(ps))
    {
      assert UnitKeys(ps)[i] == NoUnit;
    }
  }

  /** User-type counts add up to the list length; a missing type counts as 'Aluno(a)'. */
  lemma UserTypeCountsSpec(ps: seq<Participant>)
    ensures TotalAmount(UserTypeCounts(ps)) == |ps| as real
    ensures forall k :: AmountFor(UserTypeCounts(ps), k) == multiset(UserTypeKeys(ps))[k] as real
    ensures forall i :: 0 <= i < |ps| && !Truthy(ps[i].user_type) ==> DefaultUserType in KeysOf(UserTypeCounts(ps))
    ensures NoDup(KeysOf(UserTypeCounts(ps)))
    ensures forall i, j :: 0 <= i < j < |UserTypeCounts(ps)| ==>
      OccursBefore(UserTypeKeys(ps), UserTypeCounts(ps)[i].0, UserTypeCounts(ps)[j].0)
  {
    CountGrouping(UserTypeKeys(ps));
    forall i | 0 <= i < |ps| && !Truthy(ps[i].user_type)
      ensures DefaultUserType in KeysOf(UserTypeCounts(ps))
    {
      assert UserTypeKeys(ps)[i] == DefaultUserType;
    }
  }

  lemma {:induction false} FoodEntriesTotal(ps: seq<Participant>)
    ensures TotalAmount(FoodEntries(ps)) == DeliveredFoodKg(ps)
    ensures (forall i :: 0 <= i < |ps| ==> ps[i].food_kg >= 0.0) ==> DeliveredFoodKg(ps) <= TotalKg(ps)
  {
    if ps != [] {
      var n := |ps| - 1;
      FoodEntriesTotal(ps[..n]);
      AmountForConcat(FoodEntries(ps[..n]), FoodEntry(ps[n]), "");
      assert TotalAmount(FoodEntry(ps[n])) == if CountsFood(ps[n]) then ps[n].food_kg else 0.0 by {
        if CountsFood(ps[n]) {
          assert FoodEntry(ps[n])[..0] == [];
        }
      }
    }
  }

  /** Record `p` is delivered with food type `k`. */
  predicate HasFoodType(p: Participant, k: string)
  {
    CountsFood(p) && p.food_type.value == k
  }

  /** Some record of `ps` is delivered with food type `k`. */
  ghost predicate SomeHasFoodType(ps: seq<Participant>, k: string)
  {
    exists i :: 0 <= i < |ps| && HasFoodType(ps[i], k)
  }

  lemma SomeHasFoodTypeSplit(ps: seq<Participant>, k: string)
    requires ps != []
    ensures SomeHasFoodType(ps, k) <==> SomeHasFoodType(ps[..|ps| - 1], k) || HasFoodType(ps[|ps| - 1], k)
  {
    var n := |ps| - 1;
    if SomeHasFoodType(ps, k) {
      var i :| 0 <= i < |ps| && HasFoodType(ps[i], k);
      if i < n {
        assert ps[..n][i] == ps[i];
      }
    }
    if SomeHasFoodType(ps[..n], k) {
      var i :| 0 <= i < n && HasFoodType(ps[..n][i], k);
      assert ps[i] == ps[..n][i];
    }
  }

  /** A key of the food grouping is the food type of some delivered record. */
  lemma {:induction false} FoodEntriesKeys(ps: seq<Participant>, k: string)
    ensures k in KeysOf(FoodEntries(ps)) <==> SomeHasFoodType(ps, k)
  {
    if ps != [] {
      var n := |ps| - 1;
      FoodEntriesKeys(ps[..n], k);
      SomeHasFoodTypeSplit(ps, k);
      var e := FoodEntries(ps[..n]);
      var tail := FoodEntry(ps[n]);
      KeysOfConcat(e, tail);
      assert KeysOf(tail) == if CountsFood(ps[n]) then [ps[n].food_type.value] else [];
    }
  }

  /**
   * The food grouping holds only delivered records with a food type; its
   * values add up to their kilograms, which never exceed the total collected
   * when no weight is negative.
   */
  lemma FoodTypeKgSpec(ps: seq<Participant>)
    ensures TotalAmount(FoodTypeKg(ps)) == DeliveredFoodKg(ps)
    ensures (forall i :: 0 <= i < |ps| ==> ps[i].food_kg >= 0.0) ==> TotalAmount(FoodTypeKg(ps)) <= TotalKg(ps)
    ensures forall k :: k in KeysOf(FoodTypeKg(ps)) <==> SomeHasFoodType(ps, k)
    ensures NoDup(KeysOf(FoodTypeKg(ps)))
    ensures forall k :: AmountFor(FoodTypeKg(ps), k) == AmountFor(FoodEntries(ps), k)
  {
    TallyTotal(FoodEntries(ps));
    FoodEntriesTotal(ps);
    TallyKeys(FoodEntries(ps));
    forall k ensures k in KeysOf(FoodTypeKg(ps)) <==> SomeHasFoodType(ps, k)
    {
      FoodEntriesKeys(ps, k);
    }
    forall k ensures AmountFor(FoodTypeKg(ps), k) == AmountFor(FoodEntries(ps), k) {
      TallyAmount(FoodEntries(ps), k);
    }
  }
  /** What one record brings to `foodTypeCounts` in all, and under key `k`. */
  function FoodKgOf(p: Participant): real
  {
    if CountsFood(p) then p.food_kg else 0.0
  }

  function FoodKgFor(p: Participant, k: string): real
  {
    if HasFoodType(p, k) then p.food_kg else 0.0
  }

  /** Replacing one record changes the delivered food weight by that record's difference. */
  lemma {:induction false} ReplaceFoodKg(ps: seq<Participant>, i: nat, x: Participant)
    requires i < |ps|
    ensures DeliveredFoodKg(ps[i := x]) == DeliveredFoodKg(ps) - FoodKgOf(ps[i]) + FoodKgOf(x)
  {
    var n := |ps| - 1;
    var qs := ps[i := x];
    if i == n {
      assert qs[..n] == ps[..n];
    } else {
      assert qs[..n] == ps[..n][i := x];
      ReplaceFoodKg(ps[..n], i, x);
    }
  }

  lemma FoodEntryAmount(p: Participant, k: string)
    ensures AmountFor(FoodEntry(p), k) == FoodKgFor(p, k)
  {
    if CountsFood(p) {
      assert FoodEntry(p)[..0] == [];
    }
  }

  /** Replacing one record changes the weight under food type `k` by that record's difference. */
  lemma {:induction false} ReplaceFoodAmount(ps: seq<Participant>, i: nat, x: Participant, k: string)
    requires i < |ps|
    ensures AmountFor(FoodEntries(ps[i := x]), k) == AmountFor(FoodEntries(ps), k) - FoodKgFor(ps[i], k) + FoodKgFor(x, k)
  {
    var n := |ps| - 1;
    var qs := ps[i := x];
    AmountForConcat(FoodEntries(qs[..n]), FoodEntry(qs[n]), k);
    AmountForConcat(FoodEntries(ps[..n]), FoodEntry(ps[n]), k);
    FoodEntryAmount(qs[n], k);
    FoodEntryAmount(ps[n], k);
    if i == n {
      assert qs[..n] == ps[..n];
    } else {
      assert qs[..n] == ps[..n][i := x];
      ReplaceFoodAmount(ps[..n], i, x, k);
    }
  }


  // ------------------------------------------------------------ chart rows

  datatype ChartRow = ChartRow(name: string, value: real, color: string)

  const UnitPalette: seq<string> := ["#002D5B", "#1D71BC", "#FFD100", "#2A9D8F", "#E63946"]
  const FoodPalette: seq<string> := ["#FFD100", "#002D5B", "#E63946", "#2A9D8F", "#1D71BC", "#F97316", "#8E44AD"]
  const UserTypePalette: seq<string> := ["#002D5B", "#FFD100", "#E63946", "#2A9D8F", "#1D71BC"]

  /** `Object.entries(counts).map(([name, value], index) => ({ name, value, color: palette[index % n] }))`. */
  function Chart(g: seq<Entry>, palette: seq<string>): seq<ChartRow>
    requires |palette| > 0
  {
    seq(|g|, i requires 0 <= i < |g| => ChartRow(g[i].0, g[i].1, palette[i % |palette|]))
  }

  /** `barData`, `foodPieData` and `userTypePieData`. */
  function BarData(ps: seq<Participant>): seq<ChartRow> { Chart(UnitCounts(ps), UnitPalette) }
  function FoodPieData(ps: seq<Participant>): seq<ChartRow> { Chart(FoodTypeKg(ps), FoodPalette) }
  function UserTypePieData(ps: seq<Participant>): seq<ChartRow> { Chart(UserTypeCounts(ps), UserTypePalette) }

  /**
   * The chart keeps the grouping's rows in order, and with a palette of
   * distinct colours two rows share a colour exactly when their positions
   * agree modulo the palette's length.
   */
  lemma ChartColours(g: seq<Entry>, palette: seq<string>)
    requires |palette| > 0 && NoDup(palette)
    ensures |Chart(g, palette)| == |g|
    ensures forall i :: 0 <= i < |g| ==> Chart(g, palette)[i].name == g[i].0 && Chart(g, palette)[i].value == g[i].1
    ensures forall i, j :: 0 <= i < |g| && 0 <= j < |g| ==>
      (Chart(g, palette)[i].color == Chart(g, palette)[j].color <==> i % |palette| == j % |palette|)
  {
    var c := Chart(g, palette);
    forall i, j | 0 <= i < |g| && 0 <= j < |g|
      ensures c[i].color == c[j].color <==> i % |palette| == j % |palette|
    {
      var a, b := i % |palette|, j % |palette|;
      if a < b { assert palette[a] != palette[b]; }
      if b < a { assert palette[b] != palette[a]; }
    }
  }

  lemma PalettesDistinct()
    ensures NoDup(UnitPalette) && NoDup(FoodPalette) && NoDup(UserTypePalette)
  {
  }
}
