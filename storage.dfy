/**
 * The secret store the agent persists its credentials in. Its backend is not part of
 * this model: it is a map from secret to value, whose backend may refuse to start or
 * refuse writes and deletions of particular secrets.
 */
module Storage {
  import opened Types

  /** The message of a refused write or deletion. */
  const StoreFailure: string := "Secret store operation failed"

  /** The message of a refused initialisation. */
  const InitFailure: string := "Secret store unavailable"

  /** The stored values after writing `v` under `k`, when writes of `refused` fail. */
  function Written(values: map<Secret, string>, refused: set<Secret>, k: Secret, v: string): map<Secret, string>
  {
    if k in refused then values else values[k := v]
  }

  /** The stored values after deleting `k`, when deletions of `refused` fail. */
  function Deleted(values: map<Secret, string>, refused: set<Secret>, k: Secret): map<Secret, string>
  {
    if k in refused then values else values - {k}
  }

  class SecretStore {
    var values: map<Secret, string>
    /** Whether the backend can be initialised. */
    const usable: bool
    /** The secrets whose writes the backend refuses. */
    const refusedWrites: set<Secret>
    /** The secrets whose deletions the backend refuses. */
    const refusedDeletes: set<Secret>

    constructor (values: map<Secret, string>, usable: bool, refusedWrites: set<Secret>, refusedDeletes: set<Secret>)
      ensures this.values == values && this.usable == usable
      ensures this.refusedWrites == refusedWrites && this.refusedDeletes == refusedDeletes
    {
      this.values := values;
      this.usable := usable;
      this.refusedWrites := refusedWrites;
      this.refusedDeletes := refusedDeletes;
    }

    /** Prepares the backend; fails when it is unusable. Stored values are kept. */
    method Init() returns (r: Result<()>)
      ensures r.Ok? <==> usable
      ensures r.Err? ==> r.error == InitFailure
    {
      r := if usable then Ok(()) else Err(InitFailure);
    }

    /** The value stored for `k`, if any. */
    function Get(k: Secret): (r: Option<string>)
      reads this
      ensures r.Some? <==> k in values
      ensures r.Some? ==> r.value == values[k]
    {
      if k in values then Some(values[k]) else None
    }

    /** Stores `v` under `k`, unless the backend refuses, which is reported as an error. */
    method Set(k: Secret, v: string) returns (r: Result<()>)
      modifies this
      ensures r.Ok? <==> k !in refusedWrites
      ensures r.Err? ==> r.error == StoreFailure
      ensures values == Written(old(values), refusedWrites, k, v)
      ensures r.Ok? ==> Get(k) == Some(v)
    {
      if k in refusedWrites {
        r := Err(StoreFailure);
      } else {
        values := values[k := v];
        r := Ok(());
      }
    }

    /** Removes `k`, unless the backend refuses, which is reported as an error. */
    method Delete(k: Secret) returns (r: Result<()>)
      modifies this
      ensures r.Ok? <==> k !in refusedDeletes
      ensures r.Err? ==> r.error == StoreFailure
      ensures values == Deleted(old(values), refusedDeletes, k)
      ensures r.Ok? ==> Get(k) == None
    {
      if k in refusedDeletes {
        r := Err(StoreFailure);
      } else {
        values := values - {k};
        r := Ok(());
      }
    }
  }
}
