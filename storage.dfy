/**
 * Session storage kept in the process-wide session slot (`$_SESSION`).
 *
 * The slot and the platform's session save-path setting are explicit
 * objects handed to each instance instead of process globals, so that the
 * writes the storage makes to them appear in its contracts. Both carry a
 * ghost count of the writes made to them, so that "no write happens" can
 * be stated, not only "the value is the same".
 */
module Storage {
  import opened Wrappers
  import opened Php

  /** A session's entries: PHP array keys mapped to values. */
  type Entries = map<string, Value>

  /** The reserved entry that records the immutability flag. */
  const ImmutableKey: string := "_IMMUTABLE"

  /**
   * What the session slot can hold. `Unset` also stands for `null`, for
   * which `isset` is false. Every `ArrayObject` is modelled by a
   * `SessionStorage`, the one container class of this model.
   */
  datatype SlotValue =
    | Unset
    | Plain(contents: Entries)
    | Container(obj: SessionStorage)
    | OtherObject(props: Entries)  // the object's properties, as `(array)` yields them
  {
    /** The objects whose state the slot's contents live in. */
    function Objects(): set<object>
    {
      if Container? then {obj} else {}
    }

    /** `isset($_SESSION)` */
    predicate IsSet()
    {
      !Unset?
    }

    /** `is_object($_SESSION)` */
    predicate IsObject()
    {
      Container? || OtherObject?
    }

    /** The entries the slot holds, whatever its shape (none when unset). */
    function Held(): Entries
      reads Objects()
    {
      match this
      case Unset => map[]
      case Plain(m) => m
      case Container(o) => o.entries
      case OtherObject(p) => p
    }
  }

  /** The process-wide session slot, `$_SESSION`. */
  class SessionSlot {
    var value: SlotValue
    ghost var writes: nat

    constructor (initial: SlotValue)
      ensures value == initial && writes == 0
    {
      value := initial;
      writes := 0;
    }

    method Assign(v: SlotValue)
      modifies this
      ensures value == v && writes == old(writes) + 1
    {
      value := v;
      writes := writes + 1;
    }
  }

  /** The platform's session save-path setting, read and set by `session_save_path`. */
  class SavePathSetting {
    var path: string
    ghost var writes: nat

    constructor (initial: string)
      ensures path == initial && writes == 0
    {
      path := initial;
      writes := 0;
    }

    method Assign(p: string)
      modifies this
      ensures path == p && writes == old(writes) + 1
    {
      path := p;
      writes := writes + 1;
    }
  }

  /** The constructor's decision: the entries to start from, and whether to point the slot at the new instance. */
  datatype Reconciliation = Reconciliation(seed: Entries, resetSlot: bool)

  /**
   * How the constructor reconciles its optional input with the slot. An
   * explicit input wins; without one, the slot's contents are adopted (an
   * object's through an array cast) and the slot is overwritten unless it
   * already holds an `ArrayObject`.
   */
  function Reconcile(input: Option<Entries>, held: SlotValue): (r: Reconciliation)
    reads held.Objects()
    ensures r.seed == if input.Some? then input.value else held.Held()
    ensures !r.resetSlot <==> input.None? && held.Container?
  {
    if input.None? && held.IsSet() then
      if held.IsObject() && held.Container? then Reconciliation(held.obj.entries, false)
      else if held.IsObject() && !held.Container? then Reconciliation(held.props, true)
      else Reconciliation(held.contents, true)
    else if input.None? then Reconciliation(map[], true)
    else Reconciliation(input.value, true)
  }

  /**
   * The test at the head of `getSavePath`: PHP's loose `!=` between the
   * platform's save path and the cached one, where a `null` cache compares
   * as the empty string.
   */
  predicate CacheIsStale(platformPath: string, cache: Option<string>)
    ensures cache.None? ==> (CacheIsStale(platformPath, cache) <==> platformPath != "")
    ensures cache == Some(platformPath) ==> !CacheIsStale(platformPath, cache)
    ensures CacheIsStale(platformPath, cache) ==> cache != Some(platformPath)
  {
    !LooseEqualStrings(platformPath, cache.GetOr(""))
  }

  /**
   * The cache after `getSavePath`: refreshed from the platform when stale.
   * Afterwards it is never stale, so a second read writes nothing.
   */
  function RefreshedCache(platformPath: string, cache: Option<string>): (c: Option<string>)
    ensures !CacheIsStale(platformPath, c)
    ensures c == cache || c == Some(platformPath)
  {
    if CacheIsStale(platformPath, cache) then Some(platformPath) else cache
  }

  /**
   * The refreshed cache is exactly the platform's path, except in two cases
   * the loose comparison lets through: a `null` cache beside an empty path,
   * and a cache that spells the same integer differently.
   */
  lemma RefreshedCacheIsPlatformPath(platformPath: string, cache: Option<string>)
    ensures RefreshedCache(platformPath, cache) != Some(platformPath) <==>
      || (cache.None? && platformPath == "")
      || (cache.Some? && cache.value != platformPath
          && IsIntegerString(platformPath) && IsIntegerString(cache.value)
          && IntegerValue(platformPath) == IntegerValue(cache.value))
  {
  }

  /**
   * A cached path that the platform has since respelled with leading zeros
   * (a different directory) is not refreshed: `getSavePath` returns the
   * stale spelling and writes nothing. Stated for at most 18 digits, which
   * always stay below `PHP_INT_MAX`.
   */
  lemma StaleRespellingIsKept(k: nat, d: string)
    requires k > 0 && 0 < |d| <= 18 && AllDigits(d)
    ensures !CacheIsStale(Zeros(k) + d, Some(d))
    ensures RefreshedCache(Zeros(k) + d, Some(d)) == Some(d) != Some(Zeros(k) + d)
  {
    LeadingZerosLooselyEqual(k, d);
  }

  /** `SessionStorage`: an `ArrayObject` that stands in for `$_SESSION`. */
  class SessionStorage {
    var entries: Entries
    var savePath: Option<string>
    const slot: SessionSlot
    const platform: SavePathSetting

    /**
     * `$_SESSION === $this`: the slot refers to this very instance, whose
     * entries are then exactly what the slot holds.
     */
    predicate InSlot()
      reads this, slot
      ensures InSlot() ==> slot.value.IsObject() && slot.value.Held() == entries
    {
      slot.value == Container(this)
    }

    /**
     * Starts from the reconciled seed; points the slot at the new instance
     * unless the slot already held an `ArrayObject` and no input was given,
     * in which case the slot is left untouched and keeps the old container.
     */
    constructor (input: Option<Entries>, slot: SessionSlot, platform: SavePathSetting)
      modifies slot
      ensures this.slot == slot && this.platform == platform
      ensures entries == old(Reconcile(input, slot.value)).seed
      ensures savePath == None
      ensures old(Reconcile(input, slot.value)).resetSlot ==>
        InSlot() && slot.writes == old(slot.writes) + 1
      ensures !old(Reconcile(input, slot.value)).resetSlot ==> unchanged(slot)
    {
      var r := Reconcile(input, slot.value);
      this.slot := slot;
      this.platform := platform;
      entries := r.seed;
      savePath := None;
      new;
      if r.resetSlot {
        slot.Assign(Container(this));
      }
    }

    /** `__destruct`: leaves a plain copy of the entries in the slot. */
    method Teardown()
      modifies slot
      ensures slot.value == Plain(entries) && !InSlot()
      ensures slot.writes == old(slot.writes) + 1
      ensures unchanged(this)
    {
      slot.Assign(Plain(entries));
    }

    /**
     * Replaces every entry with those of `a` and makes sure the slot refers
     * to this instance, writing the slot only when it did not already.
     */
    method FromArray(a: Entries) returns (self: SessionStorage)
      modifies this, slot
      ensures self == this && entries == a && savePath == old(savePath)
      ensures InSlot()
      ensures slot.writes == old(slot.writes) + (if old(InSlot()) then 0 else 1)
    {
      entries := a;
      if slot.value != Container(this) {
        slot.Assign(Container(this));
      }
      self := this;
    }

    /** Sets the reserved entry to `true`, keeping every other entry. */
    method MarkImmutable() returns (self: SessionStorage)
      modifies this`entries
      ensures self == this && entries == old(entries)[ImmutableKey := Bool(true)]
      ensures IsImmutable()
      ensures forall k :: k != ImmutableKey ==>
        (k in entries <==> k in old(entries)) && (k in entries ==> entries[k] == old(entries)[k])
    {
      entries := entries[ImmutableKey := Bool(true)];
      self := this;
    }

    /**
     * True iff the reserved entry is set and truthy; reads only. The `isset`
     * test adds nothing to the truthiness test, since `null` is falsy.
     */
    predicate IsImmutable()
      reads this
      ensures IsImmutable() <==> ImmutableKey in entries && Truthy(entries[ImmutableKey])
    {
      ImmutableKey in entries && IsSetValue(entries[ImmutableKey]) && Truthy(entries[ImmutableKey])
    }

    /** Points the platform and the cache at `p`. */
    method SetSavePath(p: string) returns (self: SessionStorage)
      modifies this`savePath, platform
      ensures self == this && savePath == Some(p)
      ensures platform.path == p && platform.writes == old(platform.writes) + 1
    {
      platform.Assign(p);
      savePath := Some(p);
      self := this;
    }

    /**
     * Reads the platform's path, refreshes the cache when it is stale under
     * the loose comparison, and returns the cache.
     */
    method GetSavePath() returns (r: Option<string>)
      modifies this`savePath, platform
      ensures r == savePath == RefreshedCache(old(platform.path), old(savePath))
      ensures platform.path == old(platform.path)
      ensures platform.writes ==
        old(platform.writes) + (if CacheIsStale(old(platform.path), old(savePath)) then 1 else 0)
    {
      var current := platform.path;
      if CacheIsStale(current, savePath) {
        var _ := SetSavePath(current);
      }
      r := savePath;
    }
  }
}
