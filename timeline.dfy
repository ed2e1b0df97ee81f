/** The pure projections of the conversation screen
    (src/containers/ConversationChat.js): the sender's display name, the
    timeline of store records mapped to display messages newest first, the
    search over the records' string-valued fields, and the choice between the
    two in `render`.

    A lookup that throws in the source (a sender that is neither the signed-in
    user nor in the roster) is an error outcome here: the name is `None`, and
    a projection that needs it is `None` as a whole. */
module Timeline {
  import opened ChatMessages

  /** A roster entry. */
  datatype Friend = Friend(fullName: string)

  /** What the chat widget is given per message: `{_id, text, createdAt, key, user: {_id, name}}`. */
  datatype DisplayUser = DisplayUser(id: string, name: string)
  datatype DisplayMessage = DisplayMessage(
    id: string, text: string, createdAt: Timestamp, key: string, user: DisplayUser)

  /** A sender id the screen can name. */
  predicate Known(id: string, user: User, friends: map<string, Friend>)
  {
    id == user.myId || id in friends
  }

  /** `getConversationFriend`. The signed-in user's own name wins even when the
      roster also lists that id; any other id must be in the roster. */
  function SenderName(id: string, user: User, friends: map<string, Friend>): (name: Option<string>)
    ensures name.Some? <==> Known(id, user, friends)
    ensures id == user.myId ==> name == Some(user.fullName)
    ensures id != user.myId && id in friends ==> name == Some(friends[id].fullName)
  {
    if id == user.myId then Some(user.fullName)
    else if id in friends then Some(friends[id].fullName)
    else None
  }

  function Display(r: Record, name: string): DisplayMessage
  {
    DisplayMessage(r.id, r.text, r.createdAt, r.id, DisplayUser(r.userId, name))
  }

  /** `m` is what the widget should show for record `r`: the record's id (also
      as the list key), text and time, and its sender's id with the resolved name. */
  predicate Presents(m: DisplayMessage, r: Record, user: User, friends: map<string, Friend>)
  {
    m.id == r.id && m.key == r.id && m.text == r.text && m.createdAt == r.createdAt &&
    m.user.id == r.userId && SenderName(r.userId, user, friends) == Some(m.user.name)
  }

  predicate AllKnown(rs: seq<Record>, user: User, friends: map<string, Friend>)
  {
    forall i :: 0 <= i < |rs| ==> Known(rs[i].userId, user, friends)
  }

  /** The `.map(...)` step shared by both projections; fails when a sender
      cannot be named. */
  function MapAll(rs: seq<Record>, user: User, friends: map<string, Friend>): Option<seq<DisplayMessage>>
  {
    if rs == [] then Some([])
    else
      match SenderName(rs[0].userId, user, friends)
      case None => None
      case Some(name) =>
        match MapAll(rs[1..], user, friends)
        case None => None
        case Some(rest) => Some([Display(rs[0], name)] + rest)
  }

  function Reverse<T>(s: seq<T>): seq<T>
  {
    if s == [] then [] else Reverse(s[1..]) + [s[0]]
  }

  lemma {:induction false} ReverseLength<T>(s: seq<T>)
    ensures |Reverse(s)| == |s|
  {
    if s != [] {
      ReverseLength(s[1..]);
    }
  }

  lemma {:induction false} ReverseAt<T>(s: seq<T>, k: nat)
    requires k < |s|
    ensures |Reverse(s)| == |s| && Reverse(s)[k] == s[|s| - 1 - k]
  {
    ReverseLength(s);
    if k < |s| - 1 {
      ReverseAt(s[1..], k);
    }
  }

  /** The mapping step succeeds exactly when every sender can be named, and
      then keeps length and order, presenting each record at its own position. */
  lemma {:induction false} MapAllSpec(rs: seq<Record>, user: User, friends: map<string, Friend>)
    ensures MapAll(rs, user, friends).Some? <==> AllKnown(rs, user, friends)
    ensures MapAll(rs, user, friends).Some? ==>
              |MapAll(rs, user, friends).value| == |rs| &&
              forall i :: 0 <= i < |rs| ==> Presents(MapAll(rs, user, friends).value[i], rs[i], user, friends)
  {
    if rs != [] {
      var tail := rs[1..];
      MapAllSpec(tail, user, friends);
      assert forall i :: 0 <= i < |tail| ==> tail[i] == rs[i + 1];
      assert AllKnown(rs, user, friends) <==> Known(rs[0].userId, user, friends) && AllKnown(tail, user, friends) by {
        if Known(rs[0].userId, user, friends) && AllKnown(tail, user, friends) {
          forall i | 0 <= i < |rs| ensures Known(rs[i].userId, user, friends) {
            if i > 0 { assert rs[i] == tail[i - 1]; }
          }
        }
      }
    }
  }

  /** `getMappedMessages`. */
  function MappedMessages(messages: Option<seq<Record>>, user: User, friends: map<string, Friend>)
    : Option<seq<DisplayMessage>>
  {
    match messages
    case None => Some([])
    case Some(rs) =>
      match MapAll(rs, user, friends)
      case None => None
      case Some(d) => Some(Reverse(d))
  }

  /** `d` shows the records `rs`, newest (last stored) first. */
  predicate IsTimelineOf(d: seq<DisplayMessage>, rs: seq<Record>, user: User, friends: map<string, Friend>)
  {
    |d| == |rs| && forall i :: 0 <= i < |d| ==> Presents(d[i], rs[|rs| - 1 - i], user, friends)
  }

  /** Absent messages give an empty timeline; otherwise the timeline exists
      exactly when every sender can be named, and then element i presents
      record n-1-i. */
  lemma MappedMessagesSpec(messages: Option<seq<Record>>, user: User, friends: map<string, Friend>)
    ensures messages.None? ==> MappedMessages(messages, user, friends) == Some([])
    ensures messages.Some? ==>
              (MappedMessages(messages, user, friends).Some? <==> AllKnown(messages.value, user, friends))
    ensures messages.Some? && MappedMessages(messages, user, friends).Some? ==>
              IsTimelineOf(MappedMessages(messages, user, friends).value, messages.value, user, friends)
  {
    if messages.Some? {
      var rs := messages.value;
      MapAllSpec(rs, user, friends);
      if MapAll(rs, user, friends).Some? {
        var d := MapAll(rs, user, friends).value;
        ReverseLength(d);
        forall i | 0 <= i < |d| ensures Presents(Reverse(d)[i], rs[|rs| - 1 - i], user, friends) {
          ReverseAt(d, i);
        }
      }
    }
  }

  // ---------------------------------------------------------------------------
  // Search

  /** Case folding of the `i` flag, for ASCII letters. */
  function Lower(c: char): char
  {
    if 'A' <= c <= 'Z' then (c as int + 32) as char else c
  }

  /** The pattern `q` occurs in `s` at position `i`, ignoring case. */
  predicate MatchAt(s: string, q: string, i: int)
  {
    0 <= i && i + |q| <= |s| && forall k :: 0 <= k < |q| ==> Lower(s[i + k]) == Lower(q[k])
  }

  predicate StartsWithFold(s: string, q: string)
  {
    |q| <= |s| && forall k :: 0 <= k < |q| ==> Lower(s[k]) == Lower(q[k])
  }

  /** `s.match(new RegExp(q, 'i'))` is truthy, for a literal pattern `q`. */
  predicate ContainsFold(s: string, q: string)
    decreases |s|
  {
    StartsWithFold(s, q) || (s != [] && ContainsFold(s[1..], q))
  }

  /** The scan finds the pattern exactly when it occurs somewhere. */
  lemma {:induction false} ContainsFoldSpec(s: string, q: string)
    ensures ContainsFold(s, q) <==> exists i :: MatchAt(s, q, i)
    decreases |s|
  {
    if StartsWithFold(s, q) {
      assert MatchAt(s, q, 0);
    }
    if s != [] {
      ContainsFoldSpec(s[1..], q);
      if ContainsFold(s[1..], q) {
        var i :| MatchAt(s[1..], q, i);
        assert MatchAt(s, q, i + 1);
      }
      if exists i :: MatchAt(s, q, i) {
        var i :| MatchAt(s, q, i);
        if i == 0 {
          assert StartsWithFold(s, q);
        } else {
          assert MatchAt(s[1..], q, i - 1);
        }
      }
    } else if exists i :: MatchAt(s, q, i) {
      assert StartsWithFold(s, q);
    }
  }

  /** A value of a record as `_.values` yields it: a string, or something
      without a `match` method (a Date). */
  datatype FieldValue = Str(s: string) | NonString

  function StampValue(t: Timestamp): FieldValue
  {
    match t
    case IsoText(x) => Str(x)
    case DateObject(_) => NonString
  }

  /** `_.values(record)`, in key order `createdAt, text, userId, _id`. */
  function FieldValues(r: Record): seq<FieldValue>
  {
    [StampValue(r.createdAt), Str(r.text), Str(r.userId), Str(r.id)]
  }

  /** `_.method('match', re)(v)` is truthy: only strings have `match`. */
  predicate ValueMatches(v: FieldValue, q: string)
  {
    v.Str? && ContainsFold(v.s, q)
  }

  /** `_.some(_.values(r), _.method('match', re))`. */
  predicate RecordMatches(r: Record, q: string)
  {
    exists i :: 0 <= i < |FieldValues(r)| && ValueMatches(FieldValues(r)[i], q)
  }

  /** A record matches exactly when one of its string-valued fields contains
      the pattern; a Date `createdAt` never contributes. */
  lemma RecordMatchesFields(r: Record, q: string)
    ensures RecordMatches(r, q) <==>
              ContainsFold(r.text, q) || ContainsFold(r.userId, q) || ContainsFold(r.id, q) ||
              (r.createdAt.IsoText? && ContainsFold(r.createdAt.text, q))
  {
    var vs := FieldValues(r);
    if ContainsFold(r.text, q) { assert ValueMatches(vs[1], q); }
    if ContainsFold(r.userId, q) { assert ValueMatches(vs[2], q); }
    if ContainsFold(r.id, q) { assert ValueMatches(vs[3], q); }
    if r.createdAt.IsoText? && ContainsFold(r.createdAt.text, q) { assert ValueMatches(vs[0], q); }
  }

  /** `_.filter(records, RecordMatches)`. */
  function Filter(rs: seq<Record>, q: string): seq<Record>
  {
    if rs == [] then []
    else (if RecordMatches(rs[0], q) then [rs[0]] else []) + Filter(rs[1..], q)
  }

  /** Positions of the matching records from position `i` on, ascending: an
      independent description of what the filter keeps. */
  function IndicesFrom(rs: seq<Record>, q: string, i: nat): seq<nat>
    decreases |rs| - i
  {
    if i >= |rs| then []
    else (if RecordMatches(rs[i], q) then [i] else []) + IndicesFrom(rs, q, i + 1)
  }

  function KeptIndices(rs: seq<Record>, q: string): seq<nat>
  {
    IndicesFrom(rs, q, 0)
  }

  /** `f` is the subsequence of `rs` at the strictly ascending positions `idx`,
      and those positions (from `lo` on) are exactly the matching ones. */
  predicate KeepsAt(f: seq<Record>, rs: seq<Record>, idx: seq<nat>, q: string, lo: nat)
  {
    |f| == |idx| &&
    (forall k :: 0 <= k < |idx| ==> lo <= idx[k] < |rs| && f[k] == rs[idx[k]]) &&
    (forall k, l :: 0 <= k < l < |idx| ==> idx[k] < idx[l]) &&
    (forall j :: lo <= j < |rs| ==> (j in idx <==> RecordMatches(rs[j], q)))
  }

  lemma {:induction false} FilterFrom(rs: seq<Record>, q: string, i: nat)
    requires i <= |rs|
    ensures KeepsAt(Filter(rs[i..], q), rs, IndicesFrom(rs, q, i), q, i)
    decreases |rs| - i
  {
    if i < |rs| {
      FilterFrom(rs, q, i + 1);
      assert rs[i..][1..] == rs[i + 1..];
      assert rs[i..][0] == rs[i];
    }
  }

  /** The filter keeps exactly the matching records, in their stored order:
      it is the subsequence of the input at the ascending matching positions. */
  lemma FilterKeepsExactlyMatches(rs: seq<Record>, q: string)
    ensures KeepsAt(Filter(rs, q), rs, KeptIndices(rs, q), q, 0)
  {
    FilterFrom(rs, q, 0);
    assert rs[0..] == rs;
  }

  /** `getMappedSearchMessages`. */
  function MappedSearchMessages(messages: Option<seq<Record>>, q: string, user: User, friends: map<string, Friend>)
    : Option<seq<DisplayMessage>>
  {
    match messages
    case None => Some([])
    case Some(rs) =>
      match MapAll(Filter(rs, q), user, friends)
      case None => None
      case Some(d) => Some(Reverse(d))
  }

  /** The search result is the reverse of the matching records in stored
      order: it fails only when a matching record's sender cannot be named
      (a non-matching record is never looked up), and element k presents the
      k-th matching record counted from the newest. */
  lemma MappedSearchSpec(messages: Option<seq<Record>>, q: string, user: User, friends: map<string, Friend>)
    ensures messages.None? ==> MappedSearchMessages(messages, q, user, friends) == Some([])
    ensures messages.Some? ==> KeepsAt(Filter(messages.value, q), messages.value, KeptIndices(messages.value, q), q, 0)
    ensures messages.Some? ==>
              var rs, idx := messages.value, KeptIndices(messages.value, q);
              var r := MappedSearchMessages(messages, q, user, friends);
              (r.Some? <==> forall k :: 0 <= k < |idx| ==> Known(rs[idx[k]].userId, user, friends)) &&
              (r.Some? ==>
                 |r.value| == |idx| &&
                 forall k :: 0 <= k < |idx| ==> Presents(r.value[k], rs[idx[|idx| - 1 - k]], user, friends))
  {
    if messages.Some? {
      var rs := messages.value;
      var f := Filter(rs, q);
      FilterKeepsExactlyMatches(rs, q);
      MappedMessagesSpec(Some(f), user, friends);
      assert MappedSearchMessages(messages, q, user, friends) == MappedMessages(Some(f), user, friends);
    }
  }

  /** The pattern "" occurs in every string, and every record has a string
      `text`, so the empty search keeps everything. */
  lemma {:induction false} EmptyPatternKeepsAll(rs: seq<Record>)
    ensures Filter(rs, "") == rs
  {
    if rs != [] {
      assert ValueMatches(FieldValues(rs[0])[1], "");
      EmptyPatternKeepsAll(rs[1..]);
    }
  }

  /** The view choice in `render`. */
  function SelectView(searchContent: string, messages: Option<seq<Record>>, user: User, friends: map<string, Friend>)
    : Option<seq<DisplayMessage>>
  {
    if searchContent != "" then MappedSearchMessages(messages, searchContent, user, friends)
    else MappedMessages(messages, user, friends)
  }

  /** An empty search shows the unfiltered timeline and any other search the
      search projection; since the empty pattern keeps every record, what is
      shown is in every case the search projection for the current text. */
  lemma ViewIsSearch(searchContent: string, messages: Option<seq<Record>>, user: User, friends: map<string, Friend>)
    ensures searchContent == "" ==> SelectView(searchContent, messages, user, friends) == MappedMessages(messages, user, friends)
    ensures searchContent != "" ==>
              SelectView(searchContent, messages, user, friends) == MappedSearchMessages(messages, searchContent, user, friends)
    ensures SelectView(searchContent, messages, user, friends) == MappedSearchMessages(messages, searchContent, user, friends)
  {
    if messages.Some? {
      EmptyPatternKeepsAll(messages.value);
    }
  }
}
