/**
 * The in-memory farm repository of the Express backend
 * (backend/src/infrastructure/repositories/InMemoryFarmRepository.ts): a list of farms
 * changed in place by append, index assignment and splice. The clock is a parameter: one
 * reading serves as the new id's millisecond count and as both timestamps.
 */
module FarmRepository {
  import opened Wrappers

  /** backend/src/domain/entities/Farm.ts: timestamps are milliseconds since the epoch. */
  datatype Farm = Farm(id: string, name: string, location: string, createdAt: nat, updatedAt: nat)

  /** What `create` receives: a farm without id and timestamps. */
  datatype FarmInput = FarmInput(name: string, location: string)

  /** What `update` receives: any subset of a farm's fields (`Partial<Farm>`). */
  datatype FarmPatch = FarmPatch(
    id: Option<string>, name: Option<string>, location: Option<string>,
    createdAt: Option<nat>, updatedAt: Option<nat>)

  // ---------------------------------------------------------------- ids

  function Digit(d: nat): char
    requires d < 10
  {
    "0123456789"[d]
  }

  /** `n.toString()` for a non-negative integer: its decimal digits, most significant first. */
  function DecimalString(n: nat): (r: string)
    ensures 1 <= |r|
    ensures n >= 10 ==> 2 <= |r|
    ensures r[|r| - 1] == Digit(n % 10)
  {
    if n < 10 then [Digit(n)] else DecimalString(n / 10) + [Digit(n % 10)]
  }

  lemma DigitInjective(a: nat, b: nat)
    requires a < 10 && b < 10 && Digit(a) == Digit(b)
    ensures a == b
  {
  }

  /** Different clock readings give different ids. */
  lemma {:induction false} DecimalStringInjective(n: nat, m: nat)
    requires DecimalString(n) == DecimalString(m)
    ensures n == m
  {
    if n >= 10 && m >= 10 {
      SplitLastDigit(n, m);
      DecimalStringInjective(n / 10, m / 10);
      Recompose(n, m);
    } else if n < 10 && m < 10 {
      DigitInjective(n, m);
    }
  }

  /** Equal decimal strings of two numbers of two digits or more have equal heads and last digits. */
  lemma SplitLastDigit(n: nat, m: nat)
    requires DecimalString(n) == DecimalString(m) && n >= 10 && m >= 10
    ensures DecimalString(n / 10) == DecimalString(m / 10) && n % 10 == m % 10
  {
    var r := DecimalString(n);
    assert DecimalString(n / 10) == r[..|r| - 1] == DecimalString(m / 10);
    DigitInjective(n % 10, m % 10);
  }

  lemma Recompose(n: nat, m: nat)
    requires n / 10 == m / 10 && n % 10 == m % 10
    ensures n == m
  {
    assert n == 10 * (n / 10) + n % 10;
    assert m == 10 * (m / 10) + m % 10;
  }

  // ---------------------------------------------------------------- lookup

  /** `findIndex(farm => farm.id === id)`: the first position holding that id. */
  function IndexOf(farms: seq<Farm>, id: string): (r: Option<nat>)
    ensures r.Some? ==> r.value < |farms| && farms[r.value].id == id
    ensures r.Some? ==> forall j :: 0 <= j < r.value ==> farms[j].id != id
    ensures r.None? <==> forall j :: 0 <= j < |farms| ==> farms[j].id != id
  {
    if farms == [] then None
    else if farms[0].id == id then Some(0)
    else
      var k := IndexOf(farms[1..], id);
      if k.Some? then Some(k.value + 1) else None
  }

  /** The `...farm, ...data, updatedAt` overlay: the patch wins where it has a field, the clock sets `updatedAt`. */
  function Merge(f: Farm, p: FarmPatch, now: nat): (r: Farm)
    ensures r.id == p.id.GetOr(f.id) && r.name == p.name.GetOr(f.name)
    ensures r.location == p.location.GetOr(f.location) && r.createdAt == p.createdAt.GetOr(f.createdAt)
    ensures r.updatedAt == now
  {
    Farm(p.id.GetOr(f.id), p.name.GetOr(f.name), p.location.GetOr(f.location),
      p.createdAt.GetOr(f.createdAt), now)
  }

  /** An empty patch only re-stamps `updatedAt`. */
  lemma EmptyPatchTouches(f: Farm, now: nat)
    ensures Merge(f, FarmPatch(None, None, None, None, None), now) == f.(updatedAt := now)
  {
  }

  class InMemoryFarmRepository {
    var farms: seq<Farm>

    constructor ()
      ensures farms == []
    {
      farms := [];
    }

    /** `findAll`: the current contents. */
    method FindAll() returns (r: seq<Farm>)
      ensures r == farms
    {
      r := farms;
    }

    /** `findById`: the first farm with that id, or null. */
    method FindById(id: string) returns (r: Option<Farm>)
      ensures r.Some? <==> exists j :: 0 <= j < |farms| && farms[j].id == id
      ensures r.Some? ==> r.value.id == id && r.value == farms[IndexOf(farms, id).value]
      ensures r.Some? ==> forall j :: 0 <= j < IndexOf(farms, id).value ==> farms[j].id != id
    {
      var k := IndexOf(farms, id);
      if k.Some? {
        r := Some(farms[k.value]);
      } else {
        r := None;
      }
    }

    /** `create`: appends a farm whose id is the clock reading in decimal. */
    method Create(data: FarmInput, now: nat) returns (farm: Farm)
      modifies this
      ensures farm == Farm(DecimalString(now), data.name, data.location, now, now)
      ensures farms == old(farms) + [farm]
    {
      farm := Farm(DecimalString(now), data.name, data.location, now, now);
      farms := farms + [farm];
    }

    /** `update`: overlays the patch on the first farm with that id; null when there is none. */
    method Update(id: string, patch: FarmPatch, now: nat) returns (r: Option<Farm>)
      modifies this
      ensures IndexOf(old(farms), id).None? ==> r.None? && farms == old(farms)
      ensures IndexOf(old(farms), id).Some? ==>
        var k := IndexOf(old(farms), id).value;
        farms == old(farms)[k := Merge(old(farms)[k], patch, now)] && r == Some(farms[k])
    {
      var k := IndexOf(farms, id);
      if k.None? {
        return None;
      }
      farms := farms[k.value := Merge(farms[k.value], patch, now)];
      r := Some(farms[k.value]);
    }

    /** `delete`: splices out the first farm with that id; false when there is none. */
    method Delete(id: string) returns (removed: bool)
      modifies this
      ensures IndexOf(old(farms), id).None? ==> !removed && farms == old(farms)
      ensures IndexOf(old(farms), id).Some? ==>
        var k := IndexOf(old(farms), id).value;
        removed && farms == old(farms)[..k] + old(farms)[k + 1..]
    {
      var k := IndexOf(farms, id);
      if k.None? {
        return false;
      }
      farms := farms[..k.value] + farms[k.value + 1..];
      removed := true;
    }
  }

  // ---------------------------------------------------------------- round trips

  /** A created farm is found by its id unless an earlier farm already holds the same id. */
  lemma {:induction false} CreateThenFind(farms: seq<Farm>, f: Farm)
    ensures IndexOf(farms, f.id).None? ==> IndexOf(farms + [f], f.id) == Some(|farms|)
    ensures IndexOf(farms, f.id).Some? ==> IndexOf(farms + [f], f.id) == IndexOf(farms, f.id)
  {
    if farms != [] && farms[0].id != f.id {
      CreateThenFind(farms[1..], f);
      assert (farms + [f])[1..] == farms[1..] + [f];
    }
  }

  /** Two farms created at the same instant get the same id, and lookups only reach the first. */
  lemma SameInstantCollides(farms: seq<Farm>, a: FarmInput, b: FarmInput, now: nat)
    ensures var s := farms + [Farm(DecimalString(now), a.name, a.location, now, now)]
      + [Farm(DecimalString(now), b.name, b.location, now, now)];
      IndexOf(s, DecimalString(now)) != Some(|farms| + 1)
  {
    var fa := Farm(DecimalString(now), a.name, a.location, now, now);
    var fb := Farm(DecimalString(now), b.name, b.location, now, now);
    var s := farms + [fa] + [fb];
    assert s[|farms|].id == DecimalString(now);
  }

  /** An update that keeps the id is seen by the next lookup of that id. */
  lemma UpdateThenFind(farms: seq<Farm>, id: string, p: FarmPatch, now: nat)
    requires IndexOf(farms, id).Some? && (p.id.None? || p.id.value == id)
    ensures var k := IndexOf(farms, id).value;
      IndexOf(farms[k := Merge(farms[k], p, now)], id) == Some(k)
  {
    var k := IndexOf(farms, id).value;
    var u := farms[k := Merge(farms[k], p, now)];
    assert u[k].id == id;
    assert forall j :: 0 <= j < k ==> u[j] == farms[j];
  }

  /** After deleting the only farm with an id, that id is no longer found, and the others keep their order. */
  lemma DeleteThenFind(farms: seq<Farm>, id: string)
    requires IndexOf(farms, id).Some?
    requires forall i, j :: 0 <= i < j < |farms| ==> farms[i].id != farms[j].id
    ensures var k := IndexOf(farms, id).value;
      IndexOf(farms[..k] + farms[k + 1..], id).None? &&
      |farms[..k] + farms[k + 1..]| == |farms| - 1
  {
    var k := IndexOf(farms, id).value;
    var r := farms[..k] + farms[k + 1..];
    forall j | 0 <= j < |r| ensures r[j].id != id {
      if j < k {
        assert r[j] == farms[j];
      } else {
        assert r[j] == farms[j + 1];
      }
    }
  }
}
