/** The key-value store of `src/lib/upstash-storage.ts`: one form record per user, under the
    key `form:<userId>`. The remote store is a map field of a class. */
module UpstashStorage {

  import opened Wrappers
  import opened FormTypes

  const KEY_PREFIX := "form:"

  /** The key a user's record lives under. */
  function StoreKey(userId: string): (k: string)
    ensures |k| == |KEY_PREFIX| + |userId|
    ensures k[..|KEY_PREFIX|] == KEY_PREFIX && k[|KEY_PREFIX|..] == userId
  {
    KEY_PREFIX + userId
  }

  /** Distinct users have distinct keys. */
  lemma {:induction false} StoreKeyInjective(u: string, v: string)
    requires StoreKey(u) == StoreKey(v)
    ensures u == v
  {
    assert u == StoreKey(u)[|KEY_PREFIX|..];
    assert v == StoreKey(v)[|KEY_PREFIX|..];
  }

  // The store's three operations as functions of its contents.

  function Lookup(kv: map<string, FormRecord>, userId: string): Option<FormRecord> {
    if StoreKey(userId) in kv then Some(kv[StoreKey(userId)]) else None
  }

  function Stored(kv: map<string, FormRecord>, userId: string, d: FormRecord): map<string, FormRecord> {
    kv[StoreKey(userId) := d]
  }

  function Removed(kv: map<string, FormRecord>, userId: string): map<string, FormRecord> {
    kv - {StoreKey(userId)}
  }

  /** A read after a write of the same user returns what was written, and a read after a
      delete finds nothing. */
  lemma ReadYourWrites(kv: map<string, FormRecord>, userId: string, d: FormRecord)
    ensures Lookup(Stored(kv, userId, d), userId) == Some(d)
    ensures Lookup(Removed(kv, userId), userId) == None
  {
  }

  /** Writing or deleting one user's record leaves every other user's record as it was. */
  lemma {:induction false} OtherUsersUnaffected(kv: map<string, FormRecord>, u: string, v: string, d: FormRecord)
    requires u != v
    ensures Lookup(Stored(kv, u, d), v) == Lookup(kv, v)
    ensures Lookup(Removed(kv, u), v) == Lookup(kv, v)
  {
    if StoreKey(u) == StoreKey(v) {
      StoreKeyInjective(u, v);
    }
  }

  /** The remote store. Keys are whole strings such as `form:42`. */
  class FormStore {
    var kv: map<string, FormRecord>

    constructor ()
      ensures kv == map[]
    {
      kv := map[];
    }

    /** `saveFormData(userId, data)` */
    method Save(userId: string, data: FormRecord)
      modifies this
      ensures kv == Stored(old(kv), userId, data)
      ensures Lookup(kv, userId) == Some(data)
      ensures forall v :: v != userId ==> Lookup(kv, v) == Lookup(old(kv), v)
    {
      kv := kv[StoreKey(userId) := data];
      forall v | v != userId ensures Lookup(kv, v) == Lookup(old(kv), v) {
        OtherUsersUnaffected(old(kv), userId, v, data);
      }
    }

    /** `getFormData(userId)` */
    method Get(userId: string) returns (r: Option<FormRecord>)
      ensures r.Some? <==> StoreKey(userId) in kv
      ensures r.Some? ==> r.value == kv[KEY_PREFIX + userId]
    {
      var key := KEY_PREFIX + userId;
      if key in kv {
        r := Some(kv[key]);
      } else {
        r := None;
      }
    }

    /** `deleteFormData(userId)` */
    method Delete(userId: string)
      modifies this
      ensures kv == Removed(old(kv), userId)
      ensures Lookup(kv, userId) == None
      ensures forall v :: v != userId ==> Lookup(kv, v) == Lookup(old(kv), v)
    {
      kv := kv - {StoreKey(userId)};
      forall v | v != userId ensures Lookup(kv, v) == Lookup(old(kv), v) {
        OtherUsersUnaffected(old(kv), userId, v, DEFAULT_FORM_DATA);
      }
    }
  }
}
