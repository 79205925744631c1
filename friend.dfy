/**
 * Listing the caller's friends who are playing Minecraft (JoinableFriends and
 * OnlineFriends in mpsd/friend.go). The activity search, the token source and
 * the profile lookup are collaborators whose outcomes are given as inputs;
 * what the listings do with those outcomes is modelled exactly.
 */
module Friends {
  import opened Wrappers
  import opened Sequences
  import Profile

  /** The title ID activity records must carry to count as Minecraft. */
  const MinecraftTitleID: string := "1739947436"

  /** The part of an activity's related info the listings read. */
  datatype RelatedInfo = RelatedInfo(closed: bool)

  /** One record returned by the activity search; `relatedInfo` is a pointer that may be nil. */
  datatype Activity = Activity(titleID: string, ownerXUID: string, relatedInfo: Option<RelatedInfo>)

  /** One entry of a listing. */
  datatype FriendMinecraftStatus = FriendMinecraftStatus(gamertag: string, xuid: string, titleID: string)

  /** The errors a listing returns; each wraps the collaborator's own error. */
  datatype ListingError = SearchActivities(cause: string) | ObtainToken(cause: string)

  /** A call a listing makes to a collaborator, recorded in the order made. */
  datatype Call = SearchCall | TokenCall | LookupCall(xuid: string)

  /** The gamertag lookup, from XUID to gamertag or the reason there is none. */
  type Lookup = string -> Result<string, Profile.LookupError>

  /** The two listings: every friend in Minecraft, or only those whose session can be joined. */
  datatype Listing = Online | Joinable

  /** The session of an activity accepts joiners: its related info is present and not closed. */
  predicate CanJoin(a: Activity)
  {
    a.relatedInfo.Some? && !a.relatedInfo.value.closed
  }

  /** An activity of someone other than the caller, in Minecraft; for `Joinable`, also open to joiners. */
  predicate Listed(k: Listing, a: Activity, self: string)
  {
    a.titleID == MinecraftTitleID && a.ownerXUID != self && (k == Joinable ==> CanJoin(a))
  }

  /** The records a listing keeps, in input order. */
  function ListedActivities(k: Listing, acts: seq<Activity>, self: string): (kept: seq<Activity>)
  {
    if acts == [] then []
    else (if Listed(k, acts[0], self) then [acts[0]] else []) + ListedActivities(k, acts[1..], self)
  }

  /** The gamertag shown for `xuid`: the looked-up one, or the XUID itself when the lookup failed. */
  function GamertagOrXUID(found: Result<string, Profile.LookupError>, xuid: string): (gamertag: string)
  {
    match found
    case Ok(gamertag) => gamertag
    case Err(_) => xuid
  }

  /** The entry made for one kept record. */
  function StatusOf(a: Activity, lookup: Lookup): (status: FriendMinecraftStatus)
  {
    FriendMinecraftStatus(GamertagOrXUID(lookup(a.ownerXUID), a.ownerXUID), a.ownerXUID, a.titleID)
  }

  /** One entry per record, in order. */
  function Statuses(s: seq<Activity>, lookup: Lookup): (statuses: seq<FriendMinecraftStatus>)
  {
    if s == [] then [] else [StatusOf(s[0], lookup)] + Statuses(s[1..], lookup)
  }

  /** The lookups made for the records, in order. */
  function LookupCalls(s: seq<Activity>): (calls: seq<Call>)
  {
    if s == [] then [] else [LookupCall(s[0].ownerXUID)] + LookupCalls(s[1..])
  }

  // ---------------------------------------------------------------------------
  // The two listings.

  /**
   * Friends in a joinable Minecraft session. The search is consulted first
   * and its failure is returned before the token is asked for; a token
   * failure is returned next; otherwise the call succeeds, a failed lookup
   * only replacing a gamertag by the XUID.
   */
  method JoinableFriends(search: Result<seq<Activity>, string>, token: Result<string, string>, lookup: Lookup)
    returns (r: Result<seq<FriendMinecraftStatus>, ListingError>, ghost calls: seq<Call>)
    ensures search.Err? ==> r == Err(SearchActivities(search.error))
    ensures search.Ok? && token.Err? ==> r == Err(ObtainToken(token.error))
    ensures search.Ok? && token.Ok? ==> r == Ok(Statuses(ListedActivities(Joinable, search.value, token.value), lookup))
    ensures search.Err? ==> calls == [SearchCall]
    ensures search.Ok? && token.Err? ==> calls == [SearchCall, TokenCall]
    ensures search.Ok? && token.Ok? ==>
              calls == [SearchCall, TokenCall] + LookupCalls(ListedActivities(Joinable, search.value, token.value))
  {
    calls := [SearchCall];
    if search.Err? {
      r := Err(SearchActivities(search.error));
      return;
    }
    var activities := search.value;
    calls := calls + [TokenCall];
    if token.Err? {
      r := Err(ObtainToken(token.error));
      return;
    }
    var currentUserXUID := token.value;

    var joinableFriends: seq<FriendMinecraftStatus> := [];
    for i := 0 to |activities|
      invariant joinableFriends == Statuses(ListedActivities(Joinable, activities[..i], currentUserXUID), lookup)
      invariant calls == [SearchCall, TokenCall] + LookupCalls(ListedActivities(Joinable, activities[..i], currentUserXUID))
    {
      var activity := activities[i];
      ghost var kept := ListedActivities(Joinable, activities[..i], currentUserXUID);
      assert activities[..i + 1] == activities[..i] + [activity];
      ListedSnoc(Joinable, activities[..i], activity, currentUserXUID);
      assert !Listed(Joinable, activity, currentUserXUID) ==> ListedActivities(Joinable, activities[..i + 1], currentUserXUID) == kept;
      assert Listed(Joinable, activity, currentUserXUID) ==> ListedActivities(Joinable, activities[..i + 1], currentUserXUID) == kept + [activity];
      if activity.titleID == MinecraftTitleID && activity.ownerXUID != currentUserXUID {
        var canJoin := activity.relatedInfo.Some? && !activity.relatedInfo.value.closed;
        if canJoin {
          var found := lookup(activity.ownerXUID);
          calls := calls + [LookupCall(activity.ownerXUID)];
          var gamertag := if found.Err? then activity.ownerXUID else found.value;
          var status := FriendMinecraftStatus(gamertag, activity.ownerXUID, activity.titleID);
          joinableFriends := joinableFriends + [status];
          StatusesSnoc(kept, activity, lookup);
          LookupCallsSnoc(kept, activity);
        }
      }
    }
    assert activities[..|activities|] == activities;
    r := Ok(joinableFriends);
  }

  /**
   * Every friend in Minecraft, whatever the state of their session; errors
   * are returned in the same order as by JoinableFriends.
   */
  method OnlineFriends(search: Result<seq<Activity>, string>, token: Result<string, string>, lookup: Lookup)
    returns (r: Result<seq<FriendMinecraftStatus>, ListingError>, ghost calls: seq<Call>)
    ensures search.Err? ==> r == Err(SearchActivities(search.error))
    ensures search.Ok? && token.Err? ==> r == Err(ObtainToken(token.error))
    ensures search.Ok? && token.Ok? ==> r == Ok(Statuses(ListedActivities(Online, search.value, token.value), lookup))
    ensures search.Err? ==> calls == [SearchCall]
    ensures search.Ok? && token.Err? ==> calls == [SearchCall, TokenCall]
    ensures search.Ok? && token.Ok? ==>
              calls == [SearchCall, TokenCall] + LookupCalls(ListedActivities(Online, search.value, token.value))
  {
    calls := [SearchCall];
    if search.Err? {
      r := Err(SearchActivities(search.error));
      return;
    }
    var activities := search.value;
    calls := calls + [TokenCall];
    if token.Err? {
      r := Err(ObtainToken(token.error));
      return;
    }
    var currentUserXUID := token.value;

    var onlineFriends: seq<FriendMinecraftStatus> := [];
    for i := 0 to |activities|
      invariant onlineFriends == Statuses(ListedActivities(Online, activities[..i], currentUserXUID), lookup)
      invariant calls == [SearchCall, TokenCall] + LookupCalls(ListedActivities(Online, activities[..i], currentUserXUID))
    {
      var activity := activities[i];
      ghost var kept := ListedActivities(Online, activities[..i], currentUserXUID);
      assert activities[..i + 1] == activities[..i] + [activity];
      ListedSnoc(Online, activities[..i], activity, currentUserXUID);
      assert !Listed(Online, activity, currentUserXUID) ==> ListedActivities(Online, activities[..i + 1], currentUserXUID) == kept;
      assert Listed(Online, activity, currentUserXUID) ==> ListedActivities(Online, activities[..i + 1], currentUserXUID) == kept + [activity];
      if activity.titleID == MinecraftTitleID && activity.ownerXUID != currentUserXUID {
        var found := lookup(activity.ownerXUID);
        calls := calls + [LookupCall(activity.ownerXUID)];
        var gamertag := if found.Err? then activity.ownerXUID else found.value;
        var status := FriendMinecraftStatus(gamertag, activity.ownerXUID, activity.titleID);
        onlineFriends := onlineFriends + [status];
        StatusesSnoc(kept, activity, lookup);
        LookupCallsSnoc(kept, activity);
      }
    }
    assert activities[..|activities|] == activities;
    r := Ok(onlineFriends);
  }

  // ---------------------------------------------------------------------------
  // Helpers for the loops: the specification functions grow one record at a time.

  lemma {:induction false} ListedSnoc(k: Listing, s: seq<Activity>, x: Activity, self: string)
    ensures ListedActivities(k, s + [x], self) == ListedActivities(k, s, self) + (if Listed(k, x, self) then [x] else [])
  {
    var last: seq<Activity> := if Listed(k, x, self) then [x] else [];
    if s == [] {
      assert s + [x] == [x];
      assert [x][1..] == [];
      assert ListedActivities(k, [x], self) == last + ListedActivities(k, [], self);
    } else {
      var t := s + [x];
      var head: seq<Activity> := if Listed(k, s[0], self) then [s[0]] else [];
      assert t[0] == s[0];
      assert t[1..] == s[1..] + [x];
      ListedSnoc(k, s[1..], x, self);
      calc {
        ListedActivities(k, t, self);
        head + ListedActivities(k, s[1..] + [x], self);
        head + (ListedActivities(k, s[1..], self) + last);
        (head + ListedActivities(k, s[1..], self)) + last;
        ListedActivities(k, s, self) + last;
      }
    }
  }

  lemma {:induction false} StatusesSnoc(s: seq<Activity>, x: Activity, lookup: Lookup)
    ensures Statuses(s + [x], lookup) == Statuses(s, lookup) + [StatusOf(x, lookup)]
  {
    if s == [] {
      assert s + [x] == [x];
      assert [x][1..] == [];
    } else {
      var t := s + [x];
      assert t[0] == s[0];
      assert t[1..] == s[1..] + [x];
      StatusesSnoc(s[1..], x, lookup);
      calc {
        Statuses(t, lookup);
        [StatusOf(s[0], lookup)] + Statuses(s[1..] + [x], lookup);
        [StatusOf(s[0], lookup)] + (Statuses(s[1..], lookup) + [StatusOf(x, lookup)]);
        ([StatusOf(s[0], lookup)] + Statuses(s[1..], lookup)) + [StatusOf(x, lookup)];
      }
    }
  }

  lemma {:induction false} LookupCallsSnoc(s: seq<Activity>, x: Activity)
    ensures LookupCalls(s + [x]) == LookupCalls(s) + [LookupCall(x.ownerXUID)]
  {
    if s == [] {
      assert s + [x] == [x];
      assert [x][1..] == [];
    } else {
      var t := s + [x];
      assert t[0] == s[0];
      assert t[1..] == s[1..] + [x];
      LookupCallsSnoc(s[1..], x);
      calc {
        LookupCalls(t);
        [LookupCall(s[0].ownerXUID)] + LookupCalls(s[1..] + [x]);
        [LookupCall(s[0].ownerXUID)] + (LookupCalls(s[1..]) + [LookupCall(x.ownerXUID)]);
        ([LookupCall(s[0].ownerXUID)] + LookupCalls(s[1..])) + [LookupCall(x.ownerXUID)];
      }
    }
  }

  // ---------------------------------------------------------------------------
  // What a listing contains.

  /**
   * Every kept record is a record of the input that the listing accepts: in
   * Minecraft, not the caller's own, and for `Joinable` open to joiners.
   */
  lemma {:induction false} ListedAreAccepted(k: Listing, acts: seq<Activity>, self: string)
    ensures forall i :: 0 <= i < |ListedActivities(k, acts, self)| ==>
              var a := ListedActivities(k, acts, self)[i];
              a in acts && a.titleID == MinecraftTitleID && a.ownerXUID != self && (k == Joinable ==> CanJoin(a))
  {
    if acts != [] {
      ListedAreAccepted(k, acts[1..], self);
      assert acts == [acts[0]] + acts[1..];
    }
  }

  /**
   * Exactly one kept record per accepted input record: an accepted record
   * occurs as often as in the input (duplicates are not merged), any other
   * record not at all.
   */
  lemma {:induction false} ListedCounts(k: Listing, acts: seq<Activity>, self: string, a: Activity)
    ensures multiset(ListedActivities(k, acts, self))[a] == if Listed(k, a, self) then multiset(acts)[a] else 0
  {
    if acts != [] {
      ListedCounts(k, acts[1..], self, a);
      assert acts == [acts[0]] + acts[1..];
    }
  }

  /** The kept records keep their input order, so there are never more of them than records. */
  lemma {:induction false} ListedInInputOrder(k: Listing, acts: seq<Activity>, self: string)
    ensures Subsequence(ListedActivities(k, acts, self), acts)
    ensures |ListedActivities(k, acts, self)| <= |acts|
  {
    if acts != [] {
      ListedInInputOrder(k, acts[1..], self);
      var rest := ListedActivities(k, acts[1..], self);
      if Listed(k, acts[0], self) {
        assert ([acts[0]] + rest)[1..] == rest;
      } else {
        assert ListedActivities(k, acts, self) == rest;
      }
    }
    SubsequenceLength(ListedActivities(k, acts, self), acts);
  }

  /** With no accepted record among the activities the listing is empty (and not an error). */
  lemma {:induction false} NothingListedIsEmpty(k: Listing, acts: seq<Activity>, self: string)
    requires forall i :: 0 <= i < |acts| ==> !Listed(k, acts[i], self)
    ensures ListedActivities(k, acts, self) == []
  {
    if acts != [] {
      NothingListedIsEmpty(k, acts[1..], self);
    }
  }

  /** The records kept as joinable are a subsequence of those kept as online. */
  lemma {:induction false} JoinableWithinOnlineActivities(acts: seq<Activity>, self: string)
    ensures Subsequence(ListedActivities(Joinable, acts, self), ListedActivities(Online, acts, self))
  {
    if acts != [] {
      JoinableWithinOnlineActivities(acts[1..], self);
      var j := ListedActivities(Joinable, acts[1..], self);
      var o := ListedActivities(Online, acts[1..], self);
      if Listed(Joinable, acts[0], self) {
        assert ([acts[0]] + j)[1..] == j;
        assert ([acts[0]] + o)[1..] == o;
      } else if Listed(Online, acts[0], self) {
        assert ListedActivities(Joinable, acts, self) == j;
        assert ([acts[0]] + o)[1..] == o;
      } else {
        assert ListedActivities(Joinable, acts, self) == j;
        assert ListedActivities(Online, acts, self) == o;
      }
    }
  }

  /** Making one entry per record keeps a subsequence a subsequence. */
  lemma {:induction false} StatusesKeepSubsequence(a: seq<Activity>, b: seq<Activity>, lookup: Lookup)
    requires Subsequence(a, b)
    ensures Subsequence(Statuses(a, lookup), Statuses(b, lookup))
    decreases |b|
  {
    if a != [] {
      if a[0] == b[0] && Subsequence(a[1..], b[1..]) {
        StatusesKeepSubsequence(a[1..], b[1..], lookup);
      } else {
        StatusesKeepSubsequence(a, b[1..], lookup);
      }
    }
  }

  /**
   * For the same activities, caller and lookup, the joinable listing is a
   * subsequence of the online listing.
   */
  lemma JoinableWithinOnline(acts: seq<Activity>, self: string, lookup: Lookup)
    ensures Subsequence(Statuses(ListedActivities(Joinable, acts, self), lookup),
                        Statuses(ListedActivities(Online, acts, self), lookup))
  {
    JoinableWithinOnlineActivities(acts, self);
    StatusesKeepSubsequence(ListedActivities(Joinable, acts, self), ListedActivities(Online, acts, self), lookup);
  }

  /**
   * Each entry copies the XUID and title ID of its record; its gamertag is the
   * lookup's answer when there is one and the XUID when the lookup failed.
   */
  lemma {:induction false} StatusesCopyRecords(s: seq<Activity>, lookup: Lookup)
    ensures |Statuses(s, lookup)| == |s|
    ensures forall i :: 0 <= i < |s| ==>
              && Statuses(s, lookup)[i].xuid == s[i].ownerXUID
              && Statuses(s, lookup)[i].titleID == s[i].titleID
              && (lookup(s[i].ownerXUID).Ok? ==> Statuses(s, lookup)[i].gamertag == lookup(s[i].ownerXUID).value)
              && (lookup(s[i].ownerXUID).Err? ==> Statuses(s, lookup)[i].gamertag == s[i].ownerXUID)
  {
    if s != [] {
      StatusesCopyRecords(s[1..], lookup);
    }
  }

  /**
   * Every entry of a listing is about another player in Minecraft: its title
   * ID is Minecraft's and its XUID is not the caller's.
   */
  lemma ListingEntriesAccepted(k: Listing, acts: seq<Activity>, self: string, lookup: Lookup)
    ensures forall i :: 0 <= i < |Statuses(ListedActivities(k, acts, self), lookup)| ==>
              && Statuses(ListedActivities(k, acts, self), lookup)[i].titleID == MinecraftTitleID
              && Statuses(ListedActivities(k, acts, self), lookup)[i].xuid != self
  {
    ListedAreAccepted(k, acts, self);
    StatusesCopyRecords(ListedActivities(k, acts, self), lookup);
  }

  /** The lookup decides gamertags and nothing else: which entries there are does not depend on it. */
  lemma {:induction false} LookupOnlyNamesGamertags(s: seq<Activity>, l1: Lookup, l2: Lookup)
    ensures |Statuses(s, l1)| == |Statuses(s, l2)|
    ensures forall i :: 0 <= i < |Statuses(s, l1)| ==>
              Statuses(s, l1)[i].xuid == Statuses(s, l2)[i].xuid && Statuses(s, l1)[i].titleID == Statuses(s, l2)[i].titleID
  {
    if s != [] {
      LookupOnlyNamesGamertags(s[1..], l1, l2);
    }
  }

  /** One lookup per kept record, for that record's owner, in order. */
  lemma {:induction false} LookupCallsFollowRecords(s: seq<Activity>)
    ensures |LookupCalls(s)| == |s|
    ensures forall i :: 0 <= i < |s| ==> LookupCalls(s)[i] == LookupCall(s[i].ownerXUID)
  {
    if s != [] {
      LookupCallsFollowRecords(s[1..]);
    }
  }

  /**
   * The joinable listing never looks up the owner of a session that is
   * closed or has no related info: every lookup it makes is for a record it keeps.
   */
  lemma JoinableLooksUpOnlyJoinable(acts: seq<Activity>, self: string)
    ensures |LookupCalls(ListedActivities(Joinable, acts, self))| == |ListedActivities(Joinable, acts, self)|
    ensures forall i :: 0 <= i < |ListedActivities(Joinable, acts, self)| ==>
              var a := ListedActivities(Joinable, acts, self)[i];
              LookupCalls(ListedActivities(Joinable, acts, self))[i] == LookupCall(a.ownerXUID) && a in acts && CanJoin(a)
  {
    ListedAreAccepted(Joinable, acts, self);
    LookupCallsFollowRecords(ListedActivities(Joinable, acts, self));
  }

  /**
   * Three records, all with open sessions: a friend "A" in Minecraft, the
   * caller "B" in Minecraft and a player "C" in another title. Both listings
   * keep only "A".
   */
  lemma OnlyTheOpenFriendIsListed(open: RelatedInfo, other: string)
    requires !open.closed && other != MinecraftTitleID
    ensures var acts := [Activity(MinecraftTitleID, "A", Some(open)),
                         Activity(MinecraftTitleID, "B", Some(open)),
                         Activity(other, "C", Some(open))];
            && ListedActivities(Joinable, acts, "B") == [acts[0]]
            && ListedActivities(Online, acts, "B") == [acts[0]]
  {
    var acts := [Activity(MinecraftTitleID, "A", Some(open)),
                 Activity(MinecraftTitleID, "B", Some(open)),
                 Activity(other, "C", Some(open))];
    assert acts[1..][1..][1..] == [];
    assert ListedActivities(Joinable, acts[1..][1..], "B") == [];
    assert ListedActivities(Online, acts[1..][1..], "B") == [];
    assert ListedActivities(Joinable, acts[1..], "B") == [];
    assert ListedActivities(Online, acts[1..], "B") == [];
  }

  /** A profile service that answers 404 for "A" makes the entry for "A" show "A" as its gamertag. */
  lemma NotFoundFallsBackToXUID(a: Activity, network: string -> Profile.Exchange)
    requires a.ownerXUID == "A"
    requires network("A").Answered? && network("A").response.statusCode == 404
    ensures StatusOf(a, Profile.ProfileLookup(network)).gamertag == "A"
  {
  }
}
