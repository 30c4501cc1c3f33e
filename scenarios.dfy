/**
 * Client code driving `SessionStorage` through construction, reload,
 * marking, save-path reads and teardown; each result is derived from the
 * members' contracts alone.
 */
module Scenarios {
  import opened Wrappers
  import opened Php
  import opened Storage

  /** A slot already holding a plain array seeds a new instance, which takes the slot over. */
  method SeedFromSlot() returns (entries: Entries, inSlot: bool)
    ensures entries == map["a" := Int(1)] && inSlot
  {
    var slot := new SessionSlot(Plain(map["a" := Int(1)]));
    var platform := new SavePathSetting("");
    var s := new SessionStorage(None, slot, platform);
    entries, inSlot := s.entries, s.InSlot();
  }

  /** An explicit seed wins over whatever the slot holds, and the slot is overwritten. */
  method ExplicitSeedOverridesSlot() returns (entries: Entries, inSlot: bool)
    ensures entries == map["b" := Int(2)] && inSlot
  {
    var slot := new SessionSlot(Plain(map["a" := Int(1)]));
    var platform := new SavePathSetting("");
    var s := new SessionStorage(Some(map["b" := Int(2)]), slot, platform);
    entries, inSlot := s.entries, s.InSlot();
  }

  /** An object of another class in the slot seeds the instance with its properties. */
  method ObjectInSlotIsCast(props: Entries) returns (entries: Entries, inSlot: bool)
    ensures entries == props && inSlot
  {
    var slot := new SessionSlot(OtherObject(props));
    var platform := new SavePathSetting("");
    var s := new SessionStorage(None, slot, platform);
    entries, inSlot := s.entries, s.InSlot();
  }

  /**
   * A second instance built while the slot holds the first copies its
   * entries but stays detached: the slot keeps the first instance until the
   * second reloads.
   */
  method SecondInstanceStaysDetached(m: Entries, a: Entries)
    returns (copied: Entries, firstKept: bool, secondInSlot: bool, afterReload: bool)
    ensures copied == m && firstKept && !secondInSlot && afterReload
  {
    var slot := new SessionSlot(Unset);
    var platform := new SavePathSetting("");
    var first := new SessionStorage(Some(m), slot, platform);
    var second := new SessionStorage(None, slot, platform);
    copied, firstKept, secondInSlot := second.entries, first.InSlot(), second.InSlot();
    var _ := second.FromArray(a);
    afterReload := second.InSlot() && !first.InSlot();
  }

  /**
   * A reload drops every earlier key; teardown then leaves a plain copy of
   * the final entries in the slot.
   */
  method ReloadThenTeardown() returns (entries: Entries, flattened: bool, inSlot: bool)
    ensures entries == map["x" := Int(9)] && flattened && !inSlot
  {
    var slot := new SessionSlot(Unset);
    var platform := new SavePathSetting("");
    var s := new SessionStorage(Some(map["a" := Int(1), "b" := Int(2)]), slot, platform);
    var _ := s.FromArray(map["x" := Int(9)]);
    ghost var writes := slot.writes;
    var _ := s.FromArray(map["x" := Int(9)]);
    assert slot.writes == writes;
    s.Teardown();
    entries, flattened, inSlot := s.entries, slot.value == Plain(s.entries), s.InSlot();
  }

  /**
   * A fresh instance is not immutable; marking it is, twice as once; the
   * flag is an ordinary entry, so a reload without it clears it.
   */
  method ImmutabilityRoundTrip()
    returns (before: bool, after: bool, flag: Option<Value>, twice: bool, afterReload: bool)
    ensures !before && after && flag == Some(Bool(true)) && twice && !afterReload
  {
    var slot := new SessionSlot(Unset);
    var platform := new SavePathSetting("");
    var s := new SessionStorage(None, slot, platform);
    before := s.IsImmutable();
    var _ := s.MarkImmutable();
    after := s.IsImmutable();
    flag := if ImmutableKey in s.entries then Some(s.entries[ImmutableKey]) else None;
    var once := s.entries;
    var _ := s.MarkImmutable();
    twice := s.entries == once;
    var _ := s.FromArray(map[]);
    afterReload := s.IsImmutable();
  }

  /**
   * Reading the save path twice writes the platform once (the first read
   * fills the empty cache); a change made on the platform side is picked up
   * by the next read.
   */
  method SavePathCaching() returns (first: Option<string>, second: Option<string>, third: Option<string>)
    ensures first == second == Some("/tmp/a") && third == Some("/tmp/b")
  {
    var slot := new SessionSlot(Unset);
    var platform := new SavePathSetting("/tmp/a");
    var s := new SessionStorage(None, slot, platform);
    first := s.GetSavePath();
    assert platform.writes == 1;
    second := s.GetSavePath();
    assert platform.writes == 1;
    platform.Assign("/tmp/b");
    third := s.GetSavePath();
  }

  /** With an empty platform path the `null` cache is never filled. */
  method EmptyPlatformPathLeavesCacheNull() returns (r: Option<string>)
    ensures r == None
  {
    var slot := new SessionSlot(Unset);
    var platform := new SavePathSetting("");
    var s := new SessionStorage(None, slot, platform);
    r := s.GetSavePath();
  }
}
