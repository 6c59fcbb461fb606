/** One checkpoint from start to end, on an object that is not evicted: archive,
    record, sweep the stale backups in a loop, compact the ledger. */
module BackupCheckpoint {
  import opened Wrappers
  import opened BackupLedger

  class Backups {
    const me: Instance
    var bucket: map<BackupId, Instance>
    var store: Store

    constructor (me: Instance, bucket: map<BackupId, Instance>, store: Store)
      ensures this.me == me && this.bucket == bucket && this.store == store
    {
      this.me, this.bucket, this.store := me, bucket, store;
    }

    /** A deletion fails or deletes. */
    method DeleteBackup(id: BackupId) returns (deleted: bool)
      modifies this`bucket
      ensures bucket == if deleted then old(bucket) - {id} else old(bucket)
    {
      deleted := *;
      if deleted {
        bucket := bucket - {id};
      }
    }

    /** Delete the stale backups one by one, keeping those whose deletion fails. */
    method SweepStale(known: set<BackupId>, backup: BackupId) returns (remaining: set<BackupId>)
      modifies this`bucket
      ensures backup in remaining && remaining <= known + {backup}
      ensures bucket == old(bucket) - (known - remaining)
    {
      remaining := {backup};
      var todo := known - {backup};
      while todo != {}
        invariant todo <= known - {backup} && backup in remaining
        invariant remaining <= known + {backup} && remaining !! todo
        invariant bucket == old(bucket) - (known - remaining - todo)
        decreases |todo|
      {
        var stale :| stale in todo;
        todo := todo - {stale};
        var deleted := DeleteBackup(stale);
        if !deleted {
          remaining := remaining + {stale};
        }
      }
    }

    /** `id` is the backup the host archives, `recorded` whether the write that
        records it succeeds, `compacted` whether the ledger is compacted. */
    method DoCreateCheckpoint(id: BackupId, recorded: bool, compacted: bool) returns (remaining: Option<set<BackupId>>)
      requires id !in bucket && id !in OnRecord(store)
      modifies this
      ensures remaining.Some? <==> recorded
      ensures !recorded ==> store == old(store) && old(bucket).Keys <= bucket.Keys <= old(bucket).Keys + {id}
      ensures recorded ==>
                && id in remaining.value && remaining.value <= OnRecord(old(store)) + {id}
                && bucket == old(bucket)[id := me] - (OnRecord(old(store)) - remaining.value)
                && store == if compacted then Store(Some(id), remaining.value, {})
                            else old(store).(latest := Some(id), ledger := old(store).ledger + {id})
    {
      var known := OnRecord(store);
      bucket := bucket[id := me];
      if !recorded {
        var undone := DeleteBackup(id);
        return None;
      }
      store := store.(latest := Some(id), ledger := store.ledger + {id});
      var left := SweepStale(known, id);
      if compacted {
        store := store.(ledger := left, legacy := {});
      }
      remaining := Some(left);
    }
  }
}
