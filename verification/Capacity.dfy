/** A pool's capacity figures. */
module Capacity {
  import opened Wire
  import opened Json
  import opened Normalize

  predicate IsPlausible(available: int, total: int, used: Option<int>) {
    total > 0 && 0 <= available <= total && (used.Some? ==> 0 <= used.value <= total)
  }

  function SumOrNone(first: Option<int>, second: Option<int>): Option<int> {
    if first.Some? && second.Some? then Some(first.value + second.value) else None
  }

  /** (available, total, used) from the pool's own figures. */
  function PoolQueryCapacity(pool: Fields): (Option<int>, Option<int>, Option<int>) {
    var available := ToOptionalInt(Get(pool, "free"));
    var used := ToOptionalInt(Get(pool, "allocated"));
    var size := ToOptionalInt(Get(pool, "size"));
    (available, if size.Some? && size.value > 0 then size else SumOrNone(used, available), used)
  }

  /** (available, total, used) from the root dataset if there is a non-empty one. */
  function Figures(pool: Fields, root: Option<Fields>): (Option<int>, Option<int>, Option<int>) {
    if root.Some? && root.value != map[] then
      var available := ToOptionalInt(Get(root.value, "available"));
      var used := ToOptionalInt(Get(root.value, "used"));
      (available, SumOrNone(available, used), used)
    else PoolQueryCapacity(pool)
  }

  /** Python's `round(num / den)`: halves go to the even neighbour. */
  function RoundHalfEven(num: nat, den: nat): nat
    requires den > 0
  {
    var (q, r) := (num / den, num % den);
    if 2 * r < den || (2 * r == den && q % 2 == 0) then q else q + 1
  }

  /** Rounding moves a quotient by at most one half, to an even number if by exactly one half. */
  lemma RoundHalfEvenClose(num: nat, den: nat)
    requires den > 0
    ensures var e := 2 * (RoundHalfEven(num, den) * den - num);
            -1 * den <= e <= den && (e == den || e == -1 * den ==> RoundHalfEven(num, den) % 2 == 0)
  {
    var (q, r) := (num / den, num % den);
    assert num == q * den + r;
    assert (q + 1) * den == q * den + den;
  }

  /** Rounding never passes a whole number. */
  lemma RoundHalfEvenBounded(num: nat, den: nat, bound: nat)
    requires den > 0 && num <= bound * den
    ensures RoundHalfEven(num, den) <= bound
  {
    var (q, r) := (num / den, num % den);
    assert num == q * den + r;
    Scale(bound, q, den);
  }

  lemma Scale(a: nat, b: nat, c: nat)
    requires c > 0
    ensures a < b ==> a * c + c <= b * c
    ensures a == b ==> a * c == b * c
  {
    if a < b {
      Scale(a, b - 1, c);
      assert b * c == (b - 1) * c + c;
    }
  }

  const FIGURES := ["available", "total", "usage", "size", "allocated", "free"]

  function Unset(keys: seq<string>): Fields {
    map key | key in keys :: Null
  }

  function Known(available: int, total: int, taken: int): Fields
    requires 0 <= available <= total && total > 0
  {
    map["size" := Int(total), "allocated" := Int(taken), "available" := Int(available), "total" := Int(total),
        "usage" := Int(RoundHalfEven(100 * (total - available), total))]
  }

  /** The figures `_apply_pool_capacity` writes. */
  function CapacityFields(pool: Fields, root: Option<Fields>): Fields {
    var (available, total, used) := Figures(pool, root);
    if available.None? || total.None? || !IsPlausible(available.value, total.value, used) then Unset(FIGURES)
    else
      var (a, t) := (available.value, total.value);
      Known(a, t, if used.Some? && used.value + a == t then used.value else t - a)
  }

  /** `_apply_pool_capacity` */
  function ApplyCapacity(pool: Fields, root: Option<Fields>): Fields {
    pool + CapacityFields(pool, root)
  }

  /** `_apply_pool_capacity`'s loop over the unknown figures. */
  method Clear(pool: Record, keys: seq<string>)
    modifies pool
    ensures pool.fields == old(pool.fields) + Unset(keys)
  {
    for i := 0 to |keys|
      invariant pool.fields == old(pool.fields) + Unset(keys[..i])
    {
      assert keys[..i + 1] == keys[..i] + [keys[i]];
      pool.fields := pool.fields[keys[i] := Null];
    }
    assert keys[..|keys|] == keys;
  }

  method SetFigures(pool: Record, available: int, total: int, taken: int)
    requires 0 <= available <= total && total > 0
    modifies pool
    ensures pool.fields == old(pool.fields) + Known(available, total, taken)
  {
    pool.fields := pool.fields["size" := Int(total)];
    pool.fields := pool.fields["allocated" := Int(taken)];
    pool.fields := pool.fields["available" := Int(available)];
    pool.fields := pool.fields["total" := Int(total)];
    pool.fields := pool.fields["usage" := Int(RoundHalfEven(100 * (total - available), total))];
    KnownOneByOne(old(pool.fields), available, total, taken);
  }

  lemma KnownOneByOne(pool: Fields, available: int, total: int, taken: int)
    requires 0 <= available <= total && total > 0
    ensures pool + Known(available, total, taken)
         == pool["size" := Int(total)]["allocated" := Int(taken)]["available" := Int(available)]["total" := Int(total)]
                ["usage" := Int(RoundHalfEven(100 * (total - available), total))]
  {}

  function FieldsOf(root: Option<Record>): Option<Fields>
    reads if root.Some? then {root.value} else {}
  {
    if root.Some? then Some(root.value.fields) else None
  }

  /** `_apply_pool_capacity` on one record, given its root dataset's record. */
  method SetCapacity(pool: Record, root: Option<Record>)
    modifies pool
    ensures pool.fields == ApplyCapacity(old(pool.fields), old(FieldsOf(root)))
  {
    var (available, total, used) := Figures(pool.fields, FieldsOf(root));
    if available.None? || total.None? || !IsPlausible(available.value, total.value, used) {
      Clear(pool, FIGURES);
    } else {
      if used.Some? && used.value + available.value != total.value {
        used := None;
      }
      var taken := if used.Some? then used.value else total.value - available.value;
      SetFigures(pool, available.value, total.value, taken);
    }
  }

  /** None of the six figures is known. */
  predicate Unknown(pool: Fields) {
    && {"available", "total", "usage", "size", "allocated", "free"} <= pool.Keys
    && pool["available"] == pool["total"] == pool["usage"] == Null
    && pool["size"] == pool["allocated"] == pool["free"] == Null
  }

  /** The figures agree with each other: used and available make up the total, and the usage is
      the used share in percent, to the nearest whole number. */
  predicate Coherent(pool: Fields) {
    && {"available", "total", "usage", "size", "allocated"} <= pool.Keys
    && pool["available"].Int? && pool["total"].Int? && pool["usage"].Int? && pool["allocated"].Int?
    && pool["size"] == pool["total"]
    && (var (available, total, usage) := (pool["available"].n, pool["total"].n, pool["usage"].n);
        && total > 0 && 0 <= available <= total
        && pool["allocated"].n + available == total
        && 0 <= usage <= 100
        && -total <= 2 * (usage * total - 100 * (total - available)) <= total)
  }

  /** Whatever the server reports, the figures are coherent or all unknown; they are known exactly
      when the chosen source gives plausible ones, and then they are that source's. */
  lemma CapacityCoherent(pool: Fields, root: Option<Fields>)
    ensures var (available, total, used) := Figures(pool, root);
            var p := ApplyCapacity(pool, root);
            if available.Some? && total.Some? && IsPlausible(available.value, total.value, used)
            then Coherent(p) && p["available"].n == available.value && p["total"].n == total.value
            else Unknown(p)
  {
    var (available, total, used) := Figures(pool, root);
    if available.Some? && total.Some? && IsPlausible(available.value, total.value, used) {
      PlausibleIsCoherent(pool, root);
    } else {
      UnsetIsUnknown(pool);
    }
  }

  lemma PlausibleIsCoherent(pool: Fields, root: Option<Fields>)
    requires var (available, total, used) := Figures(pool, root);
             available.Some? && total.Some? && IsPlausible(available.value, total.value, used)
    ensures var (available, total, used) := Figures(pool, root);
            var p := ApplyCapacity(pool, root);
            Coherent(p) && p["available"].n == available.value && p["total"].n == total.value
  {
    var (available, total, used) := Figures(pool, root);
    var (a, t) := (available.value, total.value);
    KnownIsCoherent(pool, a, t, if used.Some? && used.value + a == t then used.value else t - a);
  }

  lemma UnsetIsUnknown(pool: Fields)
    ensures Unknown(pool + Unset(FIGURES))
  {
    assert FIGURES[0] == "available" && FIGURES[1] == "total" && FIGURES[2] == "usage";
    assert FIGURES[3] == "size" && FIGURES[4] == "allocated" && FIGURES[5] == "free";
  }

  lemma KnownIsCoherent(pool: Fields, available: int, total: int, taken: int)
    requires 0 <= available <= total && total > 0 && taken + available == total
    ensures var p := pool + Known(available, total, taken);
            Coherent(p) && p["available"].n == available && p["total"].n == total
  {
    RoundHalfEvenClose(100 * (total - available), total);
    RoundHalfEvenBounded(100 * (total - available), total, 100);
  }

  /** With a root dataset the figures are its own: what it has available, and that together with what it
      uses; they are unknown exactly if it does not give both, or both are zero, or one is negative. */
  lemma RootFigures(pool: Fields, root: Fields)
    requires root != map[]
    ensures var (p, a, u) := (ApplyCapacity(pool, Some(root)), ToOptionalInt(Get(root, "available")),
                              ToOptionalInt(Get(root, "used")));
            if a.Some? && u.Some? && a.value >= 0 && u.value >= 0 && a.value + u.value > 0
            then && Coherent(p) && p["available"].n == a.value && p["total"].n == a.value + u.value
                 && p["allocated"].n == u.value
            else Unknown(p)
  {
    CapacityCoherent(pool, Some(root));
  }

  /** Without one they are the pool's own: what it has free, and its size or, where that is missing, what
      is free together with what is allocated. */
  lemma OwnFigures(pool: Fields, root: Option<Fields>)
    requires root.None? || root.value == map[]
    ensures var (p, free, taken) := (ApplyCapacity(pool, root), ToOptionalInt(Get(pool, "free")),
                                     ToOptionalInt(Get(pool, "allocated")));
            var size := ToOptionalInt(Get(pool, "size"));
            var sized := size.Some? && size.value > 0;
            if free.Some? && free.value >= 0 && (taken.Some? ==> taken.value >= 0)
               && (if sized then free.value <= size.value && (taken.Some? ==> taken.value <= size.value)
                   else taken.Some? && free.value + taken.value > 0)
            then && Coherent(p) && p["available"].n == free.value
                 && p["total"].n == if sized then size.value else free.value + taken.value
            else Unknown(p)
  {
    CapacityCoherent(pool, root);
  }

  /** The usage is the used share in percent, rounded the way Python rounds. */
  lemma UsageIsRounded(pool: Fields, root: Option<Fields>)
    ensures var p := ApplyCapacity(pool, root);
            Coherent(p) && !Unknown(p) ==>
              p["usage"] == Int(RoundHalfEven(100 * (p["total"].n - p["available"].n), p["total"].n))
  {
    CapacityCoherent(pool, root);
  }

  /** No field but the six figures changes. */
  lemma CapacityFrame(pool: Fields, root: Option<Fields>, name: string)
    requires name !in {"available", "total", "usage", "size", "allocated", "free"}
    ensures Get(ApplyCapacity(pool, root), name) == Get(pool, name)
    ensures name in ApplyCapacity(pool, root) <==> name in pool
  {}

  /** Applying it to its own result, with the same root dataset, changes nothing. */
  lemma CapacityIdempotent(pool: Fields, root: Option<Fields>)
    ensures ApplyCapacity(ApplyCapacity(pool, root), root) == ApplyCapacity(pool, root)
  {
    FieldsSettled(pool, root);
    var fields := CapacityFields(pool, root);
    assert pool + fields + fields == pool + fields;
  }

  lemma FieldsSettled(pool: Fields, root: Option<Fields>)
    ensures CapacityFields(ApplyCapacity(pool, root), root) == CapacityFields(pool, root)
  {
    var (available, total, used) := Figures(pool, root);
    if available.None? || total.None? || !IsPlausible(available.value, total.value, used) {
      UnknownSettled(pool, root);
    } else if root.None? || root.value == map[] {
      OwnSettled(pool, root);
    }
  }

  lemma UnknownSettled(pool: Fields, root: Option<Fields>)
    requires var (available, total, used) := Figures(pool, root);
             available.None? || total.None? || !IsPlausible(available.value, total.value, used)
    ensures CapacityFields(ApplyCapacity(pool, root), root) == CapacityFields(pool, root)
  {
    var once := ApplyCapacity(pool, root);
    UnsetIsUnknown(pool);
    assert Get(once, "free") == Get(once, "size") == Get(once, "allocated") == Null;
  }

  lemma OwnSettled(pool: Fields, root: Option<Fields>)
    requires root.None? || root.value == map[]
    requires var (available, total, used) := Figures(pool, root);
             available.Some? && total.Some? && IsPlausible(available.value, total.value, used)
    ensures CapacityFields(ApplyCapacity(pool, root), root) == CapacityFields(pool, root)
  {
    var once := ApplyCapacity(pool, root);
    assert Get(once, "free") == Get(pool, "free") && Get(once, "size") == Int(Figures(pool, root).1.value);
    assert Get(once, "allocated").Int?;
  }

  /** The published record: its figures, and its fragmentation as a number. */
  function Finished(pool: Fields, root: Option<Fields>): Fields {
    ApplyCapacity(pool, root)["fragmentation" := Int(ToInt(Get(pool, "fragmentation")))]
  }

  /** A record that is finished again with the same root dataset stays as it is. */
  lemma FinishedIdempotent(pool: Fields, root: Option<Fields>)
    ensures Finished(Finished(pool, root), root) == Finished(pool, root)
  {
    var fragmentation := Int(ToInt(Get(pool, "fragmentation")));
    var once := ApplyCapacity(pool, root);
    CapacityIdempotent(pool, root);
    FragmentationIsApart(once, root, fragmentation);
    assert Get(once["fragmentation" := fragmentation], "fragmentation") == fragmentation;
  }

  lemma FragmentationIsApart(pool: Fields, root: Option<Fields>, fragmentation: Json)
    ensures ApplyCapacity(pool["fragmentation" := fragmentation], root)
         == ApplyCapacity(pool, root)["fragmentation" := fragmentation]
  {
    SameFigures(pool, pool["fragmentation" := fragmentation], root);
    Apart(pool, CapacityFields(pool, root), fragmentation);
  }

  /** The figures depend on three of the pool's own fields only. */
  lemma SameFigures(pool: Fields, pool': Fields, root: Option<Fields>)
    requires Get(pool', "free") == Get(pool, "free") && Get(pool', "allocated") == Get(pool, "allocated")
    requires Get(pool', "size") == Get(pool, "size")
    ensures CapacityFields(pool', root) == CapacityFields(pool, root)
  {
    assert Figures(pool', root) == Figures(pool, root);
  }

  lemma Apart(pool: Fields, fields: Fields, fragmentation: Json)
    requires "fragmentation" !in fields
    ensures pool["fragmentation" := fragmentation] + fields == (pool + fields)["fragmentation" := fragmentation]
  {}
}
