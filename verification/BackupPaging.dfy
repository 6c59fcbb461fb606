/** The loops over the bucket and the ledger. Both stores answer in pages, and
    what belongs to whom is told by key prefixes. */
module BackupPaging {
  import opened Wrappers

  // --- prefixes -----------------------------------------------------------------

  function ObjectPrefix(backup: string): string {
    "backups/" + backup + "/"
  }

  function NamePrefix(owner: string): string {
    "opencode:" + owner + ":"
  }

  /** A name closed by a delimiter it does not contain is a prefix of nothing but
      what was closed the same way. */
  lemma DelimitedPrefix(a: string, b: string, delimiter: char, rest: string)
    requires delimiter !in a && delimiter !in b
    ensures a + [delimiter] <= b + [delimiter] + rest <==> a == b
  {
    var left, right := a + [delimiter], b + [delimiter] + rest;
    assert |a| < |b| ==> right[|a|] == b[|a|] && b[|a|] in b;
    assert |b| < |a| ==> left[|b|] == a[|b|] && a[|b|] in a;
    assert left[|a|] == delimiter && right[|b|] == delimiter;
    if left <= right {
      assert |a| == |b|;
      assert a == left[..|a|] == right[..|a|] == b;
    }
  }

  lemma PrefixesSeparate(head: string, a: string, b: string, delimiter: char, rest: string)
    requires delimiter !in a && delimiter !in b
    ensures head + a + [delimiter] <= head + b + [delimiter] + rest <==> a == b
  {
    DelimitedPrefix(a, b, delimiter, rest);
    var left, right := head + a + [delimiter], head + b + [delimiter] + rest;
    assert left[|head|..] == a + [delimiter] && right[|head|..] == b + [delimiter] + rest;
    if left <= right {
      assert left == right[..|left|];
      assert left[|head|..] == right[|head|..][..|left| - |head|];
    }
  }

  /** The prefix that finds the objects of one backup finds no other's, and the
      prefix that finds the backups of one instance finds no other's. */
  lemma BackupsDoNotOverlap(a: string, b: string, file: string)
    requires '/' !in a && '/' !in b
    ensures ObjectPrefix(a) <= ObjectPrefix(b) + file <==> a == b
  {
    PrefixesSeparate("backups/", a, b, '/', file);
    assert "backups/" + a + ['/'] == ObjectPrefix(a);
    assert "backups/" + b + ['/'] + file == ObjectPrefix(b) + file;
  }

  lemma OwnersDoNotOverlap(a: string, b: string, reason: string)
    requires ':' !in a && ':' !in b
    ensures NamePrefix(a) <= NamePrefix(b) + reason <==> a == b
  {
    PrefixesSeparate("opencode:", a, b, ':', reason);
    assert "opencode:" + a + [':'] == NamePrefix(a);
    assert "opencode:" + b + [':'] + reason == NamePrefix(b) + reason;
  }

  // --- deleting -------------------------------------------------------------------

  function Under(objects: set<string>, prefix: string): set<string> {
    set key | key in objects && prefix <= key
  }

  ghost predicate UnderAny(key: string, backups: seq<string>) {
    exists i | 0 <= i < |backups| :: ObjectPrefix(backups[i]) <= key
  }

  class Bucket {
    var objects: set<string>

    constructor (objects: set<string>)
      ensures this.objects == objects
    {
      this.objects := objects;
    }

    /** One page of the keys under a prefix: as many as the store likes, but at
        least one while there is one. */
    method List(prefix: string) returns (page: set<string>)
      ensures page <= Under(objects, prefix)
      ensures page == {} <==> Under(objects, prefix) == {}
    {
      var left := Under(objects, prefix);
      var size :| 0 <= size;
      page := {};
      while left != {} && (page == {} || |page| < size)
        invariant left + page == Under(objects, prefix)
        decreases |left|
      {
        var key :| key in left;
        left := left - {key};
        page := page + {key};
      }
    }

    method Delete(page: set<string>)
      modifies this
      ensures objects == old(objects) - page
    {
      objects := objects - page;
    }

    /** Page after page, until the prefix of each backup lists nothing. */
    method DeleteBackupObjects(backups: seq<string>)
      modifies this
      ensures forall key :: key in objects <==> key in old(objects) && !UnderAny(key, backups)
    {
      for i := 0 to |backups|
        invariant forall key :: key in objects <==> key in old(objects) && !UnderAny(key, backups[..i])
      {
        ghost var before := objects;
        var prefix := ObjectPrefix(backups[i]);
        var page := List(prefix);
        while page != {}
          invariant objects <= before && before - Under(before, prefix) <= objects
          invariant page <= Under(objects, prefix)
          invariant page == {} <==> Under(objects, prefix) == {}
          decreases |objects|
        {
          ghost var key :| key in page;
          assert objects - page <= objects && key in objects && key !in objects - page;
          Shrinks(objects, page);
          Delete(page);
          page := List(prefix);
        }
        forall key
          ensures key in objects <==> key in before && !(prefix <= key)
        {
          assert key in objects && prefix <= key ==> key in Under(objects, prefix);
          assert key in before && !(prefix <= key) ==> key in before - Under(before, prefix);
        }
        forall key
          ensures UnderAny(key, backups[..i + 1]) <==> UnderAny(key, backups[..i]) || prefix <= key
        {
          UnderOneMore(key, backups, i);
        }
      }
      assert backups[..|backups|] == backups;
    }
  }

  lemma Shrinks(all: set<string>, page: set<string>)
    requires page <= all && page != {}
    ensures |all - page| < |all|
  {
    assert all == (all - page) + page;
  }

  lemma UnderOneMore(key: string, backups: seq<string>, i: nat)
    requires i < |backups|
    ensures UnderAny(key, backups[..i + 1]) <==> UnderAny(key, backups[..i]) || ObjectPrefix(backups[i]) <= key
  {
    assert backups[..i + 1][i] == backups[i];
    assert forall j | 0 <= j < i :: backups[..i + 1][j] == backups[..i][j];
    if UnderAny(key, backups[..i]) {
      var j :| 0 <= j < i && ObjectPrefix(backups[..i][j]) <= key;
      assert ObjectPrefix(backups[..i + 1][j]) <= key;
    }
    if UnderAny(key, backups[..i + 1]) && !(ObjectPrefix(backups[i]) <= key) {
      var j :| 0 <= j < i + 1 && ObjectPrefix(backups[..i + 1][j]) <= key;
      assert ObjectPrefix(backups[..i][j]) <= key;
    }
  }

  // --- listing ----------------------------------------------------------------------

  const LEDGER_PAGE := 1000

  ghost predicate Increasing(keys: seq<int>) {
    forall i, j | 0 <= i < j < |keys| :: keys[i] < keys[j]
  }

  /** The stored keys after `startAfter`, in order, at most `limit` of them. */
  method ListStorage(keys: seq<int>, limit: nat, startAfter: Option<int>) returns (page: seq<int>, ghost skipped: nat)
    requires Increasing(keys)
    ensures skipped + |page| <= |keys| && page == keys[skipped..skipped + |page|]
    ensures forall i | 0 <= i < |keys| :: i < skipped <==> startAfter.Some? && keys[i] <= startAfter.value
    ensures |page| == limit || (|page| < limit && skipped + |page| == |keys|)
  {
    var from := 0;
    while from < |keys| && startAfter.Some? && keys[from] <= startAfter.value
      invariant from <= |keys|
      invariant forall i | 0 <= i < from :: startAfter.Some? && keys[i] <= startAfter.value
    {
      from := from + 1;
    }
    skipped := from;
    page := keys[from..if from + limit <= |keys| then from + limit else |keys|];
  }

  /** Every key of the ledger, whatever its length. */
  method ListBackupHandleLedger(keys: seq<int>) returns (result: seq<int>)
    requires Increasing(keys)
    ensures result == keys
  {
    result := [];
    var startAfter: Option<int> := None;
    while true
      invariant result <= keys
      invariant startAfter == if |result| > 0 then Some(result[|result| - 1]) else None
      decreases |keys| - |result|
    {
      var page, skipped := ListStorage(keys, LEDGER_PAGE, startAfter);
      if |result| < |keys| {
        var k := keys[|result|];
        assert |result| < skipped <==> startAfter.Some? && k <= startAfter.value;
      }
      assert |result| > 0 ==> (|result| - 1 < skipped <==> keys[|result| - 1] <= startAfter.value);
      assert |result| > 0 ==> keys[|result| - 1] == startAfter.value;
      assert skipped == |result|;
      if |page| == 0 {
        break;
      }
      result := result + page;
      startAfter := Some(page[|page| - 1]);
      if |page| < LEDGER_PAGE {
        break;
      }
    }
  }

  /** A metadata object: the backup it describes, and the name its maker gave. */
  datatype Metadata = Metadata(id: string, name: string)

  function OwnedBy(objects: seq<Metadata>, owner: string): seq<string> {
    if objects == [] then []
    else (if NamePrefix(owner) <= objects[0].name then [objects[0].id] else []) + OwnedBy(objects[1..], owner)
  }

  lemma {:induction false} OwnedByConcat(a: seq<Metadata>, b: seq<Metadata>, owner: string)
    ensures OwnedBy(a + b, owner) == OwnedBy(a, owner) + OwnedBy(b, owner)
  {
    if a == [] {
      assert a + b == b;
    } else {
      OwnedByConcat(a[1..], b, owner);
      assert (a + b)[1..] == a[1..] + b;
      ConcatAssociates(if NamePrefix(owner) <= a[0].name then [a[0].id] else [], OwnedBy(a[1..], owner),
        OwnedBy(b, owner));
    }
  }

  lemma {:induction false} OwnedByFinds(objects: seq<Metadata>, owner: string, id: string)
    ensures id in OwnedBy(objects, owner) <==> exists m :: m in objects && m.id == id && NamePrefix(owner) <= m.name
  {
    if objects != [] {
      OwnedByFinds(objects[1..], owner, id);
      assert objects == [objects[0]] + objects[1..];
    }
  }

  /** Page after page of the whole bucket, keeping what carries the owner's name.
      A cursor is the position the next page starts at. */
  method DiscoverOwnedBackups(objects: seq<Metadata>, owner: string) returns (discovered: seq<string>)
    ensures forall id :: id in discovered <==> exists m :: m in objects && m.id == id && NamePrefix(owner) <= m.name
  {
    discovered := [];
    var cursor := 0;
    var truncated := true;
    while truncated
      invariant cursor <= |objects| && (!truncated ==> cursor == |objects|)
      invariant discovered == OwnedBy(objects[..cursor], owner)
      decreases |objects| - cursor, truncated
    {
      var end := NextPage(cursor, |objects|);
      var found := InspectPage(objects[cursor..end], owner);
      OwnedByConcat(objects[..cursor], objects[cursor..end], owner);
      assert objects[..cursor] + objects[cursor..end] == objects[..end];
      discovered := discovered + found;
      truncated := end < |objects|;
      cursor := end;
    }
    assert objects[..cursor] == objects;
    forall id ensures id in discovered <==> exists m :: m in objects && m.id == id && NamePrefix(owner) <= m.name {
      OwnedByFinds(objects, owner, id);
    }
  }

  /** Where the store ends a page is up to the store, but it makes progress. */
  method NextPage(cursor: nat, length: nat) returns (end: nat)
    requires cursor <= length
    ensures cursor <= end <= length && (cursor < length ==> cursor < end)
  {
    var size :| 0 <= size;
    end := if size < length - cursor then cursor + size else length;
    if end == cursor && cursor < length {
      end := cursor + 1;
    }
  }

  method InspectPage(page: seq<Metadata>, owner: string) returns (found: seq<string>)
    ensures found == OwnedBy(page, owner)
  {
    found := [];
    for i := 0 to |page|
      invariant found == OwnedBy(page[..i], owner)
    {
      assert page[..i + 1] == page[..i] + [page[i]];
      OwnedByConcat(page[..i], [page[i]], owner);
      if NamePrefix(owner) <= page[i].name {
        found := found + [page[i].id];
      }
    }
    assert page[..|page|] == page;
  }
}
