/**
 * The map-backed store used in tests (StubDatabase): messages keyed by the hex form of
 * their id, users keyed both by the hex form of their id and by their username.
 */
module StubDb {
  import opened Wrappers
  import opened Ids
  import opened DbModels
  import InMemoryDb

  /** The error GetUser reports on a miss. */
  datatype DoesNotExist = DoesNotExist

  predicate SortedByTimestamp(s: seq<Message>)
  {
    forall i, j :: 0 <= i < j < |s| ==> s[i].timestamp <= s[j].timestamp
  }

  predicate Distinct(s: seq<Message>)
  {
    forall i, j :: 0 <= i < j < |s| ==> s[i] != s[j]
  }

  /** The range filter exactly as written: a disjunction of the two bounds. */
  predicate InRangeAsWritten(m: Message, a: int, b: int)
  {
    m.timestamp >= a || m.timestamp <= b
  }

  /** With the bounds in order the disjunction holds of every message, so nothing is filtered out. */
  lemma OrderedBoundsKeepEverything(m: Message, a: int, b: int)
    requires a <= b
    ensures InRangeAsWritten(m, a, b)
  {
  }

  /** messages.Less: strictly earlier. */
  predicate Less(s: seq<Message>, i: int, j: int)
    requires 0 <= i < |s| && 0 <= j < |s|
  {
    s[i].timestamp < s[j].timestamp
  }

  /** messages.Swap: exchanges two entries of the slice in place. */
  method Swap(a: array<Message>, i: int, j: int)
    requires 0 <= i < a.Length && 0 <= j < a.Length
    modifies a
    ensures a[i] == old(a[j]) && a[j] == old(a[i])
    ensures forall k :: 0 <= k < a.Length && k != i && k != j ==> a[k] == old(a[k])
    ensures multiset(a[..]) == multiset(old(a[..]))
  {
    var x := a[i];
    var y := a[j];
    a[j] := x;
    a[i] := y;
  }

  /**
   * The stable sort by timestamp, as an insertion sort that only swaps a strictly
   * earlier message past a later one.
   */
  method SortByTimestamp(a: array<Message>)
    modifies a
    ensures SortedByTimestamp(a[..])
    ensures multiset(a[..]) == multiset(old(a[..]))
  {
    var i := 0;
    while i < a.Length
      invariant 0 <= i <= a.Length
      invariant SortedByTimestamp(a[..i])
      invariant multiset(a[..]) == multiset(old(a[..]))
    {
      var j := i;
      while j > 0 && Less(a[..], j, j - 1)
        invariant 0 <= j <= i
        invariant multiset(a[..]) == multiset(old(a[..]))
        invariant forall x, y :: 0 <= x < y <= i && x != j && y != j ==> a[x].timestamp <= a[y].timestamp
        invariant forall y :: j < y <= i ==> a[j].timestamp < a[y].timestamp
      {
        Swap(a, j, j - 1);
        j := j - 1;
      }
      i := i + 1;
    }
  }

  lemma {:induction false} DistinctCardinality(s: seq<Message>)
    requires Distinct(s)
    ensures |set m | m in s| == |s|
    decreases |s|
  {
    if s != [] {
      var t := s[1..];
      assert Distinct(t) by {
        forall i, j | 0 <= i < j < |t| ensures t[i] != t[j] {
          assert t[i] == s[i + 1] && t[j] == s[j + 1];
        }
      }
      DistinctCardinality(t);
      assert (set m | m in s) == (set m | m in t) + {s[0]};
      assert s[0] !in (set m | m in t) by {
        forall k | 0 <= k < |t| ensures t[k] != s[0] {
          assert t[k] == s[k + 1];
        }
      }
    }
  }

  lemma {:induction false} DistinctMultiplicity(s: seq<Message>, x: Message)
    requires Distinct(s)
    ensures multiset(s)[x] <= 1
    decreases |s|
  {
    if s != [] {
      var t := s[1..];
      assert s == [s[0]] + t;
      assert Distinct(t) by {
        forall i, j | 0 <= i < j < |t| ensures t[i] != t[j] {
          assert t[i] == s[i + 1] && t[j] == s[j + 1];
        }
      }
      DistinctMultiplicity(t, x);
      if x == s[0] {
        assert x !in t by {
          forall k | 0 <= k < |t| ensures t[k] != x {
            assert t[k] == s[k + 1];
          }
        }
      }
    }
  }

  /** A permutation of a sequence without repeats has no repeats either. */
  lemma PermutationKeepsDistinct(s: seq<Message>, t: seq<Message>)
    requires Distinct(s) && multiset(s) == multiset(t)
    ensures Distinct(t)
  {
    forall i, j | 0 <= i < j < |t| ensures t[i] != t[j] {
      if t[i] == t[j] {
        var x := t[i];
        assert t == t[..i] + [x] + t[i + 1..j] + [x] + t[j + 1..];
        assert multiset(t)[x] >= 2;
        DistinctMultiplicity(s, x);
        assert false;
      }
    }
  }

  lemma PermutationOfDistinct(msgs: seq<Message>, sorted: seq<Message>)
    requires Distinct(msgs) && multiset(msgs) == multiset(sorted)
    ensures Distinct(sorted) && |sorted| == |msgs|
    ensures forall m :: m in sorted <==> m in msgs
  {
    PermutationKeepsDistinct(msgs, sorted);
    assert |multiset(sorted)| == |multiset(msgs)|;
    forall m ensures m in sorted <==> m in msgs {
      assert m in sorted <==> m in multiset(sorted);
      assert m in msgs <==> m in multiset(msgs);
    }
  }

  /** A prefix of a sorted sequence holds nothing later than what it leaves out. */
  lemma SortedPrefixIsEarliest(sorted: seq<Message>, k: nat)
    requires SortedByTimestamp(sorted) && k <= |sorted|
    ensures forall m, i :: m in sorted && m !in sorted[..k] && 0 <= i < k ==> sorted[i].timestamp <= m.timestamp
  {
    forall m, i | m in sorted && m !in sorted[..k] && 0 <= i < k
      ensures sorted[i].timestamp <= m.timestamp
    {
      var p :| 0 <= p < |sorted| && sorted[p] == m;
      assert p >= k;
    }
  }

  /**
   * Cutting a sorted permutation of the matching messages after `limit` entries keeps
   * the `limit` earliest of them.
   */
  lemma TruncateSorted(msgs: seq<Message>, sorted: seq<Message>, matching: set<Message>, limit: int)
    requires Distinct(msgs) && (set m | m in msgs) == matching
    requires multiset(msgs) == multiset(sorted) && SortedByTimestamp(sorted)
    requires limit >= 0
    ensures var r := if |sorted| >= limit then sorted[..limit] else sorted;
      && SortedByTimestamp(r)
      && Distinct(r)
      && (forall i :: 0 <= i < |r| ==> r[i] in matching)
      && |r| == InMemoryDb.Min(|matching|, limit)
      && (forall m, i :: m in matching && m !in r && 0 <= i < |r| ==> r[i].timestamp <= m.timestamp)
  {
    DistinctCardinality(msgs);
    PermutationOfDistinct(msgs, sorted);
    var k := InMemoryDb.Min(|sorted|, limit);
    assert (if |sorted| >= limit then sorted[..limit] else sorted) == sorted[..k];
    SortedPrefixIsEarliest(sorted, k);
  }

  class StubDatabase {
    var UsersById: map<string, User>
    var Messages: map<string, Message>
    var UsersByUsername: map<string, User>

    /** Every entry is stored under its own key. */
    ghost predicate Valid()
      reads this
    {
      && (forall k :: k in Messages ==> k == Hex(Messages[k].messageId))
      && (forall k :: k in UsersById ==> k == Hex(UsersById[k].userId))
      && (forall k :: k in UsersByUsername ==> k == UsersByUsername[k].username)
    }

    /** The stored messages the range query keeps. */
    ghost function Matching(a: int, b: int): set<Message>
      reads this
    {
      set m | m in Messages.Values && InRangeAsWritten(m, a, b)
    }

    constructor ()
      ensures Valid()
      ensures UsersById == map[] && Messages == map[] && UsersByUsername == map[]
    {
      UsersById, Messages, UsersByUsername := map[], map[], map[];
    }

    /**
     * Stamps the message with the id derived for it and stores it under that id's hex
     * form, replacing any message already stored there. `stored` is the caller's
     * message after the call.
     */
    method InsertMessage(m: Message, id: ObjectId) returns (stored: Message, err: Option<string>)
      requires Valid()
      modifies this`Messages
      ensures Valid()
      ensures stored == m.(messageId := id)
      ensures Messages == old(Messages)[Hex(id) := stored]
      ensures Messages.Keys == old(Messages.Keys) + {Hex(id)}
      ensures err == None
    {
      stored := m.(messageId := id);
      Messages := Messages[Hex(stored.messageId) := stored];
      err := None;
    }

    lemma ValueStoredUnderOwnKey(m: Message)
      requires Valid() && m in Messages.Values
      ensures Hex(m.messageId) in Messages && Messages[Hex(m.messageId)] == m
    {
      var k :| k in Messages && Messages[k] == m;
    }

    /** The Range pass: every stored message that passes the filter, once each. */
    method CollectMatching(a: int, b: int) returns (msgs: seq<Message>)
      requires Valid()
      ensures Distinct(msgs)
      ensures (set m | m in msgs) == Matching(a, b)
    {
      msgs := [];
      var remaining := Messages.Keys;
      ghost var visited: set<string> := {};
      while remaining != {}
        invariant remaining !! visited && remaining + visited == Messages.Keys
        invariant Distinct(msgs)
        invariant forall i :: 0 <= i < |msgs| ==> msgs[i] in Matching(a, b) && Hex(msgs[i].messageId) in visited
        invariant forall k :: k in visited && InRangeAsWritten(Messages[k], a, b) ==> Messages[k] in msgs
        decreases remaining
      {
        var k :| k in remaining;
        var message := Messages[k];
        if InRangeAsWritten(message, a, b) {
          msgs := msgs + [message];
        }
        remaining := remaining - {k};
        visited := visited + {k};
      }
      forall m | m in Matching(a, b) ensures m in msgs {
        ValueStoredUnderOwnKey(m);
      }
    }

    /**
     * Collects the stored messages that pass the filter (in the map's own, unspecified,
     * order), sorts them by timestamp and keeps the first `limit`. The answer is the
     * `limit` earliest matching messages, earliest first.
     */
    method GetMessagesBetween(a: int, b: int, limit: int) returns (r: seq<Message>, err: Option<string>)
      requires Valid() && limit >= 0
      ensures err == None
      ensures SortedByTimestamp(r)
      ensures Distinct(r)
      ensures forall i :: 0 <= i < |r| ==> r[i] in Matching(a, b)
      ensures |r| == InMemoryDb.Min(|Matching(a, b)|, limit)
      ensures forall m, i :: m in Matching(a, b) && m !in r && 0 <= i < |r| ==> r[i].timestamp <= m.timestamp
    {
      var msgs := CollectMatching(a, b);
      var arr := new Message[|msgs|](i requires 0 <= i < |msgs| => msgs[i]);
      assert arr[..] == msgs;
      SortByTimestamp(arr);
      var sorted := arr[..];
      TruncateSorted(msgs, sorted, Matching(a, b), limit);
      if |sorted| >= limit {
        r := sorted[..limit];
      } else {
        r := sorted;
      }
      err := None;
    }

    /** Copies the stored message with the caller's id back; a missing id is a failed type assertion. */
    method GetMessage(m: Message) returns (r: Message, err: Option<string>)
      requires Valid() && Hex(m.messageId) in Messages
      ensures r in Messages.Values && r.messageId == m.messageId
      ensures err == None
    {
      r := Messages[Hex(m.messageId)];
      HexInjective(r.messageId, m.messageId);
      err := None;
    }

    /** Forgets only the message with the given id. */
    method DeleteMessage(m: Message) returns (err: Option<string>)
      requires Valid()
      modifies this`Messages
      ensures Valid()
      ensures Messages == old(Messages) - {Hex(m.messageId)}
      ensures err == None
    {
      Messages := Messages - {Hex(m.messageId)};
      err := None;
    }

    /** Stamps the user with the derived id and stores the same record under both keys. */
    method InsertUser(u: User, id: ObjectId) returns (stored: User, err: Option<string>)
      requires Valid()
      modifies this`UsersById, this`UsersByUsername
      ensures Valid()
      ensures stored == u.(userId := id)
      ensures UsersById == old(UsersById)[Hex(id) := stored]
      ensures UsersByUsername == old(UsersByUsername)[u.username := stored]
      ensures err == None
    {
      stored := u.(userId := id);
      UsersById := UsersById[Hex(stored.userId) := stored];
      UsersByUsername := UsersByUsername[stored.username := stored];
      err := None;
    }

    /**
     * Looks the user up by id when the caller's id is set, otherwise by username, never
     * both; with neither set the store panics. On a hit `found` is the stored record, on
     * a miss the caller's record is left as it was.
     */
    method GetUser(u: User) returns (found: User, err: Option<DoesNotExist>)
      requires Valid()
      requires u.userId != NilObjectId || u.username != ""
      ensures u.userId != NilObjectId ==>
        (err == None <==> Hex(u.userId) in UsersById)
      ensures u.userId == NilObjectId ==>
        (err == None <==> u.username in UsersByUsername)
      ensures err == None && u.userId != NilObjectId ==> found == UsersById[Hex(u.userId)] && found.userId == u.userId
      ensures err == None && u.userId == NilObjectId ==> found == UsersByUsername[u.username] && found.username == u.username
      ensures err != None ==> err == Some(DoesNotExist) && found == u
    {
      var user: Option<User>;
      if u.userId != NilObjectId {
        user := if Hex(u.userId) in UsersById then Some(UsersById[Hex(u.userId)]) else None;
        if user.Some? {
          HexInjective(user.value.userId, u.userId);
        }
      } else {
        user := if u.username in UsersByUsername then Some(UsersByUsername[u.username]) else None;
      }
      if user.None? {
        return u, Some(DoesNotExist);
      }
      found, err := user.value, None;
    }

    /** Forgets the user under both keys. */
    method DeleteUser(u: User) returns (err: Option<string>)
      requires Valid()
      modifies this`UsersById, this`UsersByUsername
      ensures Valid()
      ensures UsersById == old(UsersById) - {Hex(u.userId)}
      ensures UsersByUsername == old(UsersByUsername) - {u.username}
      ensures err == None
    {
      UsersById := UsersById - {Hex(u.userId)};
      UsersByUsername := UsersByUsername - {u.username};
      err := None;
    }
  }
}
