/** The store as an object, and the registration of blobs by a transaction. */
module BlobRegistry {
  import opened Orders
  import opened BlobModel

  /** A registration that holds the bytes of the object it names. */
  predicate Brings(reg: Registration, digest: nat, length: nat) {
    reg.ref.digest == digest && reg.ref.length == length && reg.held == Some(Bytes(digest, length))
  }

  ghost predicate Brought(regs: seq<Registration>, n: nat, digest: nat, length: nat)
    requires n <= |regs|
  {
    exists j :: 0 <= j < n && Brings(regs[j], digest, length)
  }

  /** Whether registration `i` finds its object, or it or an earlier one brings the bytes. */
  ghost predicate Recoverable(objects: map<nat, nat>, regs: seq<Registration>, i: nat)
    requires i < |regs|
  {
    Present(objects, regs[i].ref) || Brought(regs, i + 1, regs[i].ref.digest, regs[i].ref.length)
  }

  /** Every object's length is the one its content has. */
  ghost predicate Sound(w: World, objects: map<nat, nat>) {
    forall d :: d in objects ==> d in w.sizes && objects[d] == w.sizes[d]
  }

  class BlobStore {
    var objects: map<nat, nat>

    constructor ()
      ensures objects == map[]
    {
      objects := map[];
    }

    method Verify(ref: Ref) returns (ok: bool)
      ensures ok == Present(objects, ref)
    {
      ok := ref.digest in objects && objects[ref.digest] == ref.length;
    }

    /** Publishing creates, it never rewrites. */
    method Store(b: Bytes, media: nat) returns (ref: Ref)
      modifies this
      ensures ref == Ref(b.digest, media, b.length)
      ensures objects == Stored(old(objects), b)
    {
      if b.digest !in objects {
        objects := objects[b.digest := b.length];
      }
      ref := Ref(b.digest, media, b.length);
    }

    /** An erased object is gone and nothing else is; erasing it again succeeds. */
    method Erase(ref: Ref) returns (ok: bool)
      modifies this
      ensures ok == Erasable(old(objects), ref)
      ensures objects == if ok then old(objects) - {ref.digest} else old(objects)
    {
      if ref.digest !in objects {
        return true;
      }
      if objects[ref.digest] != ref.length {
        return false;
      }
      objects := objects - {ref.digest};
      ok := true;
    }
  }

  ghost predicate Kept(before: map<nat, nat>, objects: map<nat, nat>) {
    forall d :: d in before ==> d in objects && objects[d] == before[d]
  }

  ghost predicate OnlyBrought(before: map<nat, nat>, objects: map<nat, nat>, regs: seq<Registration>, n: nat)
    requires n <= |regs|
  {
    forall d :: d in objects && d !in before ==> Brought(regs, n, d, objects[d])
  }

  /** What the check loop has done to the store after `n` registrations that all succeeded. */
  ghost predicate Registered(before: map<nat, nat>, objects: map<nat, nat>, regs: seq<Registration>, n: nat)
    requires n <= |regs|
  {
    && Kept(before, objects)
    && OnlyBrought(before, objects, regs, n)
    && (forall i :: 0 <= i < n ==> Present(objects, regs[i].ref))
    && (forall i :: 0 <= i < n ==> Recoverable(before, regs, i))
  }

  lemma BroughtLonger(regs: seq<Registration>, n: nat, digest: nat, length: nat)
    requires n < |regs| && Brought(regs, n, digest, length)
    ensures Brought(regs, n + 1, digest, length)
  {
  }

  lemma RegisteredStep(w: World, before: map<nat, nat>, objects: map<nat, nat>, regs: seq<Registration>, n: nat)
    requires n < |regs| && Registered(before, objects, regs, n) && Sound(w, objects) && w.Allows(regs[n])
    requires Checked(objects, regs[n]).1
    ensures Registered(before, Checked(objects, regs[n]).0, regs, n + 1) && Sound(w, Checked(objects, regs[n]).0)
  {
    var ref, objects' := regs[n].ref, Checked(objects, regs[n]).0;
    if !Present(objects, ref) {
      assert ref.digest !in objects && Brings(regs[n], ref.digest, ref.length);
    }
    forall d | d in objects' && d !in before ensures Brought(regs, n + 1, d, objects'[d]) {
      if d in objects { BroughtLonger(regs, n, d, objects[d]); }
    }
  }

  lemma FailedIsUnrecoverable(w: World, before: map<nat, nat>, objects: map<nat, nat>, regs: seq<Registration>, n: nat)
    requires n < |regs| && Registered(before, objects, regs, n) && Sound(w, objects) && w.Allows(regs[n])
    requires !Checked(objects, regs[n]).1
    ensures !Recoverable(before, regs, n) && Sound(w, Checked(objects, regs[n]).0)
  {
    var ref := regs[n].ref;
    forall j | 0 <= j < n + 1 ensures !Brings(regs[j], ref.digest, ref.length) {
      if j < n { assert Present(objects, regs[j].ref); }
    }
  }

  method LockEach(digests: seq<nat>) returns (locks: seq<LockKey>)
    ensures locks == BlobLocks(digests)
  {
    locks := [];
    for i := 0 to |digests|
      invariant |locks| == i && forall j :: 0 <= j < i ==> locks[j] == Blob(digests[j])
    {
      locks := locks + [Blob(digests[i])];
    }
  }

  method TakeLocks(regs: seq<Registration>) returns (locks: seq<LockKey>)
    ensures locks == RegistrarPlan(None, regs)
  {
    var digests := Ordered(Digests(regs));
    locks := LockEach(digests);
  }

  method CheckOne(store: BlobStore, reg: Registration) returns (ok: bool)
    modifies store
    ensures (store.objects, ok) == Checked(old(store.objects), reg)
  {
    ok := store.Verify(reg.ref);
    if !ok && reg.held.Some? {
      var stored := store.Store(reg.held.value, reg.ref.media);
      ok := stored.digest == reg.ref.digest && stored.length == reg.ref.length;
    }
  }

  /** Locks ascending and without repeats, then proves each object present or restores it. Succeeds
      exactly when every registration can be recovered, keeps every object there was, and adds
      nothing that was not registered. */
  method RegisterBlobs(store: BlobStore, regs: seq<Registration>, ghost w: World)
    returns (locks: seq<LockKey>, ok: bool)
    requires Sound(w, store.objects) && forall i :: 0 <= i < |regs| ==> w.Allows(regs[i])
    modifies store
    ensures locks == RegistrarPlan(None, regs)
    ensures ok <==> forall i :: 0 <= i < |regs| ==> Recoverable(old(store.objects), regs, i)
    ensures ok ==> Registered(old(store.objects), store.objects, regs, |regs|)
    ensures Sound(w, store.objects) && Kept(old(store.objects), store.objects)
  {
    locks := TakeLocks(regs);
    ghost var before := store.objects;
    for i := 0 to |regs|
      invariant Registered(before, store.objects, regs, i) && Sound(w, store.objects)
    {
      ghost var objects := store.objects;
      ok := CheckOne(store, regs[i]);
      if !ok {
        FailedIsUnrecoverable(w, before, objects, regs, i);
        return;
      }
      RegisteredStep(w, before, objects, regs, i);
    }
    ok := true;
  }
}
