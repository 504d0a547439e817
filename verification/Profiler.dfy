/**
 Stage 1c: from profiled threads to a manifest, and on to the scheduler generated from it.
 */
module Profiler {
  import opened Wrappers
  import opened Comm
  import opened Manifest
  import opened Generator

  /** A profiled thread with the role its behaviour was given. */
  datatype Thread = Thread(comm: string, role: Role)

  /** Python's `s.rstrip(chars)`. */
  function RStrip(s: string, chars: string): (r: string)
    ensures r <= s
  {
    if s != "" && s[|s| - 1] in chars then RStrip(s[..|s| - 1], chars) else s
  }

  const DIGITS := "0123456789"

  /** The name without trailing digits and then underscores, unless nothing is left. */
  function GroupPrefix(comm: string): (r: string)
    ensures r <= comm
    ensures r == "" <==> comm == ""
  {
    var prefix := RStrip(RStrip(comm, DIGITS), "_");
    if prefix == "" then comm else prefix
  }

  // ----- what the group prefix is

  predicate AllIn(s: string, chars: string) {
    forall i :: 0 <= i < |s| ==> s[i] in chars
  }

  predicate EndsOutside(s: string, chars: string) {
    s == "" || s[|s| - 1] !in chars
  }

  /** The name is `r`, underscores, digits, with as many digits and then underscores as can be. */
  predicate SplitsAs(comm: string, r: string, underscores: string, digits: string) {
    && comm == r + underscores + digits
    && AllIn(underscores, "_") && AllIn(digits, "0123456789")
    && EndsOutside(r, "_") && EndsOutside(r + underscores, "0123456789")
  }

  lemma {:induction false} RStripMeaning(s: string, chars: string) returns (t: string)
    ensures s == RStrip(s, chars) + t && AllIn(t, chars) && EndsOutside(RStrip(s, chars), chars)
  {
    if s != "" && s[|s| - 1] in chars {
      var u := RStripMeaning(s[..|s| - 1], chars);
      t := u + [s[|s| - 1]];
      assert s == s[..|s| - 1] + [s[|s| - 1]];
    } else {
      t := "";
    }
  }

  lemma SuffixIsUnique(a: string, t: string, b: string, u: string, chars: string)
    requires a + t == b + u && AllIn(t, chars) && AllIn(u, chars)
    requires EndsOutside(a, chars) && EndsOutside(b, chars)
    ensures a == b && t == u
  {
    var s := a + t;
    assert forall i :: |a| <= i < |s| ==> s[i] == t[i - |a|];
    assert forall i :: |b| <= i < |s| ==> (b + u)[i] == u[i - |b|];
    assert a != "" ==> s[|a| - 1] == a[|a| - 1];
    assert b != "" ==> (b + u)[|b| - 1] == b[|b| - 1];
    assert |a| == |b|;
    assert a == s[..|a|] && b == (b + u)[..|b|];
    assert t == s[|a|..] && u == (b + u)[|b|..];
  }

  /**
   Every name splits that way, and in one way only; the group prefix is the first part, or
   the whole name when that part is empty.
   */
  lemma GroupPrefixMeaning(comm: string) returns (r: string, underscores: string, digits: string)
    ensures SplitsAs(comm, r, underscores, digits) && GroupPrefix(comm) == if r == "" then comm else r
  {
    digits := RStripMeaning(comm, DIGITS);
    var named := RStrip(comm, DIGITS);
    underscores := RStripMeaning(named, "_");
    r := RStrip(named, "_");
  }

  lemma GroupPrefixIs(comm: string, r: string, underscores: string, digits: string)
    requires SplitsAs(comm, r, underscores, digits)
    ensures GroupPrefix(comm) == if r == "" then comm else r
  {
    var r', u', d' := GroupPrefixMeaning(comm);
    SuffixIsUnique(r + underscores, digits, r' + u', d', "0123456789");
    SuffixIsUnique(r, underscores, r', u', "_");
  }

  /** For example, `io_thd_1` belongs to the group `io_thd`. */
  lemma NumberedIoThread()
    ensures GroupPrefix("io_thd_1") == "io_thd"
  {
    assert "io_thd_1" == "io_thd" + "_" + "1";
    GroupPrefixIs("io_thd_1", "io_thd", "_", "1");
  }

  type GroupKey = (Role, string)

  function KeyOfThread(td: Thread): GroupKey {
    (td.role, GroupPrefix(td.comm))
  }

  /** The names of the threads of a group, in order. */
  function CommsOf(tds: seq<Thread>, key: GroupKey): seq<string> {
    if tds == [] then []
    else
      var last, before := tds[|tds| - 1], CommsOf(tds[..|tds| - 1], key);
      if KeyOfThread(last) == key then before + [last.comm] else before
  }

  predicate AllSame(comms: seq<string>) {
    forall i, j :: 0 <= i < |comms| && 0 <= j < |comms| ==> comms[i] == comms[j]
  }

  /** The manifest entry of a group: one distinct name is reported as an exact match. */
  function EntryOf(tds: seq<Thread>, key: GroupKey): Entry {
    Entry(key.0, if AllSame(CommsOf(tds, key)) then "comm_exact" else "comm_prefix",
          Value(key.1), Value(|key.1|))
  }

  /** The entry of the group of thread `j`. */
  function EntryFor(tds: seq<Thread>, j: nat): Entry
    requires j < |tds|
  {
    EntryOf(tds, KeyOfThread(tds[j]))
  }

  predicate SameName(tds: seq<Thread>, key: GroupKey) {
    forall i, j :: 0 <= i < |tds| && 0 <= j < |tds| && KeyOfThread(tds[i]) == KeyOfThread(tds[j]) == key ==>
      tds[i].comm == tds[j].comm
  }

  /**
   A group's entry has its role, its whole prefix with the length of it, and is reported as
   an exact match if and only if all its threads have one name.
   */
  lemma EntryMeaning(tds: seq<Thread>, j: nat)
    requires j < |tds|
    ensures var e, key := EntryFor(tds, j), (tds[j].role, GroupPrefix(tds[j].comm));
            && e.role == tds[j].role && e.prefix == Value(key.1) && e.length == Value(|key.1|)
            && (e.idType == "comm_exact" <==> SameName(tds, key))
            && (e.idType == "comm_prefix" <==> !SameName(tds, key))
  {
    SameNamesIff(tds, KeyOfThread(tds[j]));
    DifferentTypes();
  }

  lemma DifferentTypes()
    ensures "comm_exact" != "comm_prefix"
  {
    assert |"comm_exact"| != |"comm_prefix"|;
  }

  lemma SameNamesIff(tds: seq<Thread>, key: GroupKey)
    ensures AllSame(CommsOf(tds, key)) <==> SameName(tds, key)
  {
    var comms := CommsOf(tds, key);
    forall c
      ensures c in comms <==> IsNameIn(tds, key, c)
    {
      CommsAreNames(tds, key, c);
    }
    if AllSame(comms) {
      forall i, j | 0 <= i < |tds| && 0 <= j < |tds| && KeyOfThread(tds[i]) == KeyOfThread(tds[j]) == key
        ensures tds[i].comm == tds[j].comm
      {
        assert IsNameIn(tds, key, tds[i].comm) && IsNameIn(tds, key, tds[j].comm);
      }
    }
    if SameName(tds, key) {
      forall i, j | 0 <= i < |comms| && 0 <= j < |comms|
        ensures comms[i] == comms[j]
      {
        assert comms[i] in comms && comms[j] in comms;
        assert IsNameIn(tds, key, comms[i]) && IsNameIn(tds, key, comms[j]);
      }
    }
  }

  predicate IsNameIn(tds: seq<Thread>, key: GroupKey, c: string) {
    exists i :: 0 <= i < |tds| && KeyOfThread(tds[i]) == key && tds[i].comm == c
  }

  lemma NameStep(tds: seq<Thread>, td: Thread, key: GroupKey, c: string)
    ensures IsNameIn(tds + [td], key, c) <==> IsNameIn(tds, key, c) || (KeyOfThread(td) == key && td.comm == c)
  {
    var all := tds + [td];
    if IsNameIn(tds, key, c) {
      var i :| 0 <= i < |tds| && KeyOfThread(tds[i]) == key && tds[i].comm == c;
      assert all[i] == tds[i];
    }
    assert all[|tds|] == td;
  }

  lemma CommsStep(tds: seq<Thread>, td: Thread, key: GroupKey, c: string)
    ensures c in CommsOf(tds + [td], key) <==> c in CommsOf(tds, key) || (KeyOfThread(td) == key && td.comm == c)
  {
    assert (tds + [td])[..|tds|] == tds;
  }

  /** The names of a group are those of its threads. */
  lemma {:induction false} CommsAreNames(tds: seq<Thread>, key: GroupKey, c: string)
    ensures c in CommsOf(tds, key) <==> IsNameIn(tds, key, c)
  {
    if tds != [] {
      var init, last := tds[..|tds| - 1], tds[|tds| - 1];
      assert tds == init + [last];
      CommsAreNames(init, key, c);
      NameStep(init, last, key, c);
      CommsStep(init, last, key, c);
    }
  }

  ghost predicate Lists(entries: seq<Entry>, i: nat, tds: seq<Thread>, j: nat) {
    i < |entries| && j < |tds| && entries[i] == EntryFor(tds, j)
  }

  ghost predicate FromThread(entries: seq<Entry>, i: nat, tds: seq<Thread>) {
    exists j: nat :: Lists(entries, i, tds, j)
  }

  ghost predicate IsListed(entries: seq<Entry>, tds: seq<Thread>, j: nat) {
    exists i: nat :: Lists(entries, i, tds, j)
  }

  /** One entry per group and nothing else, in any order. */
  ghost predicate IsManifestOf(entries: seq<Entry>, tds: seq<Thread>) {
    && Distinct(entries)
    && (forall i: nat :: i < |entries| ==> FromThread(entries, i, tds))
    && (forall j: nat :: j < |tds| ==> IsListed(entries, tds, j))
  }

  lemma {:induction false} ThreadHasComms(tds: seq<Thread>, i: nat)
    requires i < |tds|
    ensures CommsOf(tds, KeyOfThread(tds[i])) != []
  {
    if i < |tds| - 1 {
      ThreadHasComms(tds[..|tds| - 1], i);
    }
  }

  lemma {:induction false} CommsHaveThread(tds: seq<Thread>, key: GroupKey) returns (i: nat)
    requires CommsOf(tds, key) != []
    ensures i < |tds| && KeyOfThread(tds[i]) == key
  {
    i := |tds| - 1;
    if KeyOfThread(tds[i]) != key {
      i := CommsHaveThread(tds[..|tds| - 1], key);
    }
  }

  type Groups = map<GroupKey, seq<string>>

  ghost predicate AreGroups(groups: Groups, tds: seq<Thread>) {
    && (forall key :: key in groups <==> CommsOf(tds, key) != [])
    && (forall key :: key in groups ==> groups[key] == CommsOf(tds, key))
  }

  /** The grouping loop. */
  method GroupThreads(tds: seq<Thread>) returns (groups: Groups)
    ensures AreGroups(groups, tds)
  {
    groups := map[];
    for i := 0 to |tds|
      invariant AreGroups(groups, tds[..i])
    {
      assert tds[..i + 1][..i] == tds[..i];
      var prefix := RStrip(RStrip(tds[i].comm, DIGITS), "_");
      if prefix == "" {
        prefix := tds[i].comm;
      }
      var key := (tds[i].role, prefix);
      if key !in groups {
        groups := groups[key := []];
      }
      groups := groups[key := groups[key] + [tds[i].comm]];
    }
    assert tds[..|tds|] == tds;
  }

  ghost predicate ListsKeys(entries: seq<Entry>, tds: seq<Thread>, keys: seq<GroupKey>) {
    |entries| == |keys| && forall i :: 0 <= i < |keys| ==> entries[i] == EntryOf(tds, keys[i])
  }

  /** The loop over the groups and the manifest's list of threads. */
  method BuildManifest(tds: seq<Thread>) returns (entries: seq<Entry>)
    ensures IsManifestOf(entries, tds)
  {
    var groups := GroupThreads(tds);
    entries := [];
    var rest := groups.Keys;
    ghost var keys: seq<GroupKey> := [];
    while rest != {}
      invariant rest <= groups.Keys && Distinct(keys)
      invariant forall key :: key in keys <==> key in groups && key !in rest
      invariant ListsKeys(entries, tds, keys)
      decreases rest
    {
      var key :| key in rest;
      var comms := set c <- groups[key];
      SameIffOne(groups[key]);
      var idType := if |comms| == 1 then "comm_exact" else "comm_prefix";
      entries := entries + [Entry(key.0, idType, Value(key.1), Value(|key.1|))];
      rest, keys := rest - {key}, keys + [key];
    }
    ListingKeysIsManifest(entries, tds, keys);
  }

  lemma ListingKeysIsManifest(entries: seq<Entry>, tds: seq<Thread>, keys: seq<GroupKey>)
    requires ListsKeys(entries, tds, keys) && Distinct(keys)
    requires forall key :: key in keys <==> CommsOf(tds, key) != []
    ensures IsManifestOf(entries, tds)
  {
    forall i, j | 0 <= i < j < |keys|
      ensures entries[i] != entries[j]
    {
      assert keys[i] != keys[j];
    }
    forall i: nat | i < |entries|
      ensures FromThread(entries, i, tds)
    {
      assert keys[i] in keys;
      var j := CommsHaveThread(tds, keys[i]);
      assert Lists(entries, i, tds, j);
    }
    forall j: nat | j < |tds|
      ensures IsListed(entries, tds, j)
    {
      ThreadHasComms(tds, j);
      var i :| 0 <= i < |keys| && keys[i] == KeyOfThread(tds[j]);
      assert Lists(entries, i, tds, j);
    }
  }

  lemma SameIffOne(comms: seq<string>)
    requires comms != []
    ensures |(set c <- comms)| == 1 <==> AllSame(comms)
  {
    var all := set c <- comms;
    assert comms[0] in all;
    if AllSame(comms) {
      assert all == {comms[0]};
    }
    if |all| == 1 {
      assert |all - {comms[0]}| == 0;
      assert forall i :: 0 <= i < |comms| ==> comms[i] in all;
    }
  }

  // ----- from profiles to the generated scheduler

  /** Some thread of the role has a group prefix that the name starts with. */
  predicate Observed(tds: seq<Thread>, role: Role, name: string) {
    exists i :: 0 <= i < |tds| && tds[i].role == role && GroupPrefix(tds[i].comm) <= name
  }

  lemma EntryForThread(tds: seq<Thread>, j: nat)
    requires j < |tds|
    ensures EntryFor(tds, j).role == tds[j].role && !EntryFor(tds, j).prefix.Null?
    ensures Truncated(EntryFor(tds, j)) == GroupPrefix(tds[j].comm)
  {
  }

  lemma EntryHasThread(entries: seq<Entry>, tds: seq<Thread>, i: nat) returns (j: nat)
    requires IsManifestOf(entries, tds) && i < |entries|
    ensures j < |tds| && entries[i].role == tds[j].role && !entries[i].prefix.Null?
    ensures Truncated(entries[i]) == GroupPrefix(tds[j].comm)
  {
    assert FromThread(entries, i, tds);
    j :| Lists(entries, i, tds, j);
    EntryForThread(tds, j);
  }

  lemma ThreadHasEntry(entries: seq<Entry>, tds: seq<Thread>, j: nat) returns (i: nat)
    requires IsManifestOf(entries, tds) && j < |tds|
    ensures i < |entries| && entries[i].role == tds[j].role
    ensures Truncated(entries[i]) == GroupPrefix(tds[j].comm)
  {
    assert IsListed(entries, tds, j);
    i :| Lists(entries, i, tds, j);
    EntryForThread(tds, j);
  }

  lemma EntriesMatchAsObserved(entries: seq<Entry>, tds: seq<Thread>, role: Role, name: string)
    requires IsManifestOf(entries, tds)
    ensures Matches(entries, role, name) <==> Observed(tds, role, name)
  {
    if Matches(entries, role, name) {
      var i :| 0 <= i < |entries| && entries[i].role == role && Truncated(entries[i]) <= name;
      var j := EntryHasThread(entries, tds, i);
    }
    if Observed(tds, role, name) {
      var j :| 0 <= j < |tds| && tds[j].role == role && GroupPrefix(tds[j].comm) <= name;
      var i := ThreadHasEntry(entries, tds, j);
    }
  }

  /** The names that can be written into the generated source. */
  predicate GoodNames(tds: seq<Thread>, role: Role) {
    forall i :: 0 <= i < |tds| && tds[i].role == role ==> GoodPattern(GroupPrefix(tds[i].comm))
  }

  lemma EntriesWellFormed(entries: seq<Entry>, tds: seq<Thread>, role: Role)
    requires IsManifestOf(entries, tds)
    ensures WellFormed(entries, role) <==> GoodNames(tds, role)
    ensures !HasNullPrefix(entries, role)
  {
    forall i | 0 <= i < |entries| && entries[i].role == role
      ensures exists j :: 0 <= j < |tds| && tds[j].role == role && GroupPrefix(tds[j].comm) == Truncated(entries[i])
      ensures !entries[i].prefix.Null?
    {
      var j := EntryHasThread(entries, tds, i);
    }
    if WellFormed(entries, role) {
      forall j | 0 <= j < |tds| && tds[j].role == role
        ensures GoodPattern(GroupPrefix(tds[j].comm))
      {
        var i := ThreadHasEntry(entries, tds, j);
      }
    }
  }

  /** When the profile's manifest makes a scheduler. */
  lemma ProfileIsUsable(entries: seq<Entry>, tds: seq<Thread>, pattern: Pattern)
    requires IsManifestOf(entries, tds)
    ensures Usable(entries, pattern) <==>
            GoodNames(tds, Background) && (pattern.AsymmetricTaskStorage? ==> GoodNames(tds, Foreground))
  {
    UsableManifests(entries, pattern);
    EntriesWellFormed(entries, tds, Background);
    EntriesWellFormed(entries, tds, Foreground);
  }

  /**
   Exactly what the scheduler generated from a profile does with any name: patterns A and B
   treat it as background if and only if it starts with the group prefix of a thread seen
   as background; pattern C lets a match with a foreground group win.
   */
  lemma ProfiledScheduler(entries: seq<Entry>, tds: seq<Thread>, pattern: Pattern, name: Name)
    requires IsManifestOf(entries, tds) && Usable(entries, pattern)
    ensures Classify(Generated(entries, pattern), Read(name))
         == Some(if pattern.AsymmetricTaskStorage? && Observed(tds, Foreground, name) then Kicker
                 else if Observed(tds, Background, name) then Hog
                 else if pattern.AsymmetricTaskStorage? then Normal
                 else Kicker)
  {
    GeneratedMeaning(entries, pattern, Read(name));
    EntriesMatchAsObserved(entries, tds, Background, name);
    EntriesMatchAsObserved(entries, tds, Foreground, name);
  }

  /**
   Every thread seen as background is background to patterns A and B; every thread seen as
   foreground is TASK_FOREGROUND to pattern C.
   */
  lemma ProfileIsRespected(entries: seq<Entry>, tds: seq<Thread>, pattern: Pattern, i: nat)
    requires IsManifestOf(entries, tds) && Usable(entries, pattern)
    requires i < |tds| && IsName(tds[i].comm)
    ensures var class_ := Classify(Generated(entries, pattern), Read(tds[i].comm));
            if pattern.AsymmetricTaskStorage? then tds[i].role == Foreground ==> class_ == Some(Kicker)
            else tds[i].role == Background ==> class_ == Some(Hog)
  {
    ProfiledScheduler(entries, tds, pattern, tds[i].comm);
    assert GroupPrefix(tds[i].comm) <= tds[i].comm;
  }

  /** The scheduler gives the thread the role it was seen in. */
  predicate Judged(entries: seq<Entry>, tds: seq<Thread>, pattern: Pattern, i: nat)
    requires Usable(entries, pattern) && i < |tds| && IsName(tds[i].comm)
  {
    Classify(Generated(entries, pattern), Read(tds[i].comm))
    == Some(if tds[i].role == Background then Hog else Kicker)
  }

  /** The role whose groups win in a pattern when a name matches both. */
  function Winner(pattern: Pattern): Role {
    if pattern.AsymmetricTaskStorage? then Foreground else Background
  }

  /** A thread of the losing role whose name starts with the group prefix of a winning one. */
  predicate Captured(tds: seq<Thread>, pattern: Pattern, i: nat) {
    i < |tds| && tds[i].role != Winner(pattern) && Observed(tds, Winner(pattern), tds[i].comm)
  }

  /**
   So a profile is reproduced for every thread if and only if no group of the winning role
   captures a thread of the other.
   */
  lemma ProfileIsExactIff(entries: seq<Entry>, tds: seq<Thread>, pattern: Pattern)
    requires IsManifestOf(entries, tds) && Usable(entries, pattern)
    requires forall i :: 0 <= i < |tds| ==> IsName(tds[i].comm)
    ensures (forall i :: 0 <= i < |tds| ==> Judged(entries, tds, pattern, i))
       <==> (forall i: nat :: !Captured(tds, pattern, i))
  {
    forall i | 0 <= i < |tds|
      ensures Judged(entries, tds, pattern, i) <==> !Captured(tds, pattern, i)
    {
      JudgedIffNotCaptured(entries, tds, pattern, i);
    }
  }

  lemma JudgedIffNotCaptured(entries: seq<Entry>, tds: seq<Thread>, pattern: Pattern, i: nat)
    requires IsManifestOf(entries, tds) && Usable(entries, pattern) && i < |tds| && IsName(tds[i].comm)
    ensures Judged(entries, tds, pattern, i) <==> !Captured(tds, pattern, i)
  {
    ProfiledScheduler(entries, tds, pattern, tds[i].comm);
    assert Observed(tds, tds[i].role, tds[i].comm) by {
      assert GroupPrefix(tds[i].comm) <= tds[i].comm;
    }
  }

  /**
   Two threads of different roles in one group: patterns A and B take the foreground one
   for background, pattern C the background one for foreground.
   */
  lemma SharedGroupIsMisjudged(entries: seq<Entry>, tds: seq<Thread>, pattern: Pattern, i: nat, j: nat)
    requires IsManifestOf(entries, tds) && Usable(entries, pattern)
    requires i < |tds| && tds[i].role == Foreground && IsName(tds[i].comm)
    requires j < |tds| && tds[j].role == Background && IsName(tds[j].comm)
    requires GroupPrefix(tds[i].comm) == GroupPrefix(tds[j].comm)
    ensures var misjudged := if pattern.AsymmetricTaskStorage? then tds[j].comm else tds[i].comm;
            Classify(Generated(entries, pattern), Read(misjudged))
            == Some(if pattern.AsymmetricTaskStorage? then Kicker else Hog)
  {
    ProfiledScheduler(entries, tds, pattern, if pattern.AsymmetricTaskStorage? then tds[j].comm else tds[i].comm);
    assert GroupPrefix(tds[i].comm) <= tds[i].comm && GroupPrefix(tds[j].comm) <= tds[j].comm;
  }

  /** Two threads named alike but for their number share a group. */
  lemma NumberedThreadsShareGroup()
    ensures GroupPrefix("io1") == GroupPrefix("io2") == "io"
  {
    assert "io1" == "io" + "" + "1" && "io2" == "io" + "" + "2" && "io" + "" == "io";
    GroupPrefixIs("io1", "io", "", "1");
    GroupPrefixIs("io2", "io", "", "2");
  }
}
