/** The refresh lock: a transaction held in a file of its own. */
module OauthRefreshLock {
  import opened Base

  /** The lock file: one open transaction at a time. */
  class LockFile {
    var holder: Option<RefreshLock>

    constructor ()
      ensures holder == None
    {
      holder := None;
    }

    /** Never blocks: `None` while another transaction is open. */
    method TryAcquire() returns (lock: Option<RefreshLock>)
      modifies this
      ensures lock.Some? <==> old(holder).None?
      ensures lock.Some? ==> fresh(lock.value) && holder == lock && lock.value.file == this && !lock.value.released
      ensures lock.None? ==> holder == old(holder)
    {
      if holder.Some? {
        return None;
      }
      var taken := new RefreshLock(this);
      holder := Some(taken);
      return Some(taken);
    }
  }

  class RefreshLock {
    const file: LockFile
    var released: bool

    constructor (file: LockFile)
      ensures this.file == file && !released
    {
      this.file := file;
      released := false;
    }

    /** Releasing twice never releases the lock of a later holder. */
    method Release()
      requires !released ==> file.holder == Some(this)
      modifies this, file
      ensures released
      ensures file.holder == if old(released) then old(file.holder) else None
    {
      if released {
        return;
      }
      released := true;
      file.holder := None;
    }
  }
}
