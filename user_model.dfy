/**
 * The `User` model: the schema's setters, defaults and validators, the password hashing
 * pre-save hook, `comparePassword`, and the collection itself with the three operations
 * the controller uses (`findOne`, `create`, `save`) and the two unique indexes.
 */
module UserModel {
  import opened Prelude
  import opened JsText

  /** Opaque document identifier (`_id`). */
  type Id = nat

  /** `minlength: 6`, counted as JavaScript counts `length`: in UTF-16 code units. */
  const MinPasswordLength: nat := 6

  /**
   * What the `password` path holds: the plaintext as assigned by a controller, or the digest
   * that the pre-save hook writes in its place.
   */
  datatype Secret = Plain(text: string) | Digest(preimage: string)

  /** `bcrypt.hash`, abstracted to an injective symbolic digest (salt and cost are not modelled). */
  function Hash(plain: string): Secret
  {
    Digest(plain)
  }

  /** `bcrypt.compare(candidate, stored)`: false against anything that is not a digest. */
  predicate Compare(candidate: string, stored: Secret)
  {
    stored.Digest? && stored == Hash(candidate)
  }

  /** A digest matches exactly the plaintext it was made from. */
  lemma CompareHash(candidate: string, plain: string)
    ensures Compare(candidate, Hash(plain)) <==> candidate == plain
  {
  }

  /** `!!this.password` */
  predicate HasPassword(p: Option<Secret>)
  {
    p.Some? && p.value != Plain("")
  }

  /** One user document (timestamps are not modelled). */
  datatype Record = Record(
    name: string,
    email: string,
    password: Option<Secret>,
    googleId: Option<string>,
    isVerified: bool,
    otp: Option<string>,
    otpExpiresAt: Option<nat>)

  /** The argument of `User.create`: what the caller sets; absent paths take their defaults. */
  datatype NewUser = NewUser(
    name: string,
    email: string,
    password: Option<string>,
    googleId: Option<string>,
    isVerified: Option<bool>,
    otp: Option<string>,
    otpExpiresAt: Option<nat>)

  /** The document `new User(u)` builds: the `trim` setter on name and the `isVerified` default. */
  function Initial(u: NewUser): (r: Record)
    ensures r.name == Trim(u.name) && r.email == u.email && r.googleId == u.googleId
    ensures u.isVerified.None? ==> !r.isVerified
    ensures u.isVerified.Some? ==> r.isVerified == u.isVerified.value
    ensures u.password.None? <==> r.password.None?
    ensures u.password.Some? ==> r.password == Some(Plain(u.password.value))
    ensures r.otp == u.otp && r.otpExpiresAt == u.otpExpiresAt
  {
    Record(
      Trim(u.name),
      u.email,
      match u.password case Some(p) => Some(Plain(p)) case None => None,
      u.googleId,
      match u.isVerified case Some(b) => b case None => false,
      u.otp,
      u.otpExpiresAt)
  }

  /** The password path is required exactly when no `googleId` is set. */
  predicate PasswordRequired(r: Record)
    ensures PasswordRequired(r) <==> r.googleId == None || r.googleId == Some("")
  {
    !Truthy(r.googleId)
  }

  /**
   * The schema validators: name required, email required and accepted by `validator.isEmail`
   * (an uninterpreted predicate here), password required without a googleId, and a plaintext
   * password of at least six UTF-16 code units (a digest is always long enough).
   */
  predicate SchemaValid(r: Record, isEmail: string -> bool)
    ensures SchemaValid(r, isEmail) && r.googleId.None? ==> r.password.Some?
    ensures SchemaValid(r, isEmail) ==> r.name != "" && isEmail(r.email)
  {
    r.name != "" &&
    r.email != "" && isEmail(r.email) &&
    (PasswordRequired(r) ==> HasPassword(r.password)) &&
    (r.password.Some? && r.password.value.Plain? ==> Utf16Length(r.password.value.text) >= MinPasswordLength)
  }

  /** What may sit in the collection: valid, and a password only ever as a digest. */
  predicate StoredForm(r: Record, isEmail: string -> bool)
  {
    SchemaValid(r, isEmail) && (r.password.Some? ==> r.password.value.Digest?)
  }

  /** The pre-save hook can run: a modified password must hold plaintext to hash. */
  predicate HookCanRun(r: Record, modified: bool)
  {
    modified ==> r.password.Some? && r.password.value.Plain?
  }

  /** The document after the pre-save hook: rehashed only when the password path changed. */
  function AfterHook(r: Record, modified: bool): (h: Record)
    requires HookCanRun(r, modified)
    ensures !modified ==> h == r
    ensures modified ==> h == r.(password := Some(Hash(r.password.value.text)))
  {
    if modified then r.(password := Some(Hash(r.password.value.text))) else r
  }

  /** A valid document leaves the hook in the form the collection holds. */
  lemma AfterHookStored(r: Record, modified: bool, isEmail: string -> bool)
    requires SchemaValid(r, isEmail) && HookCanRun(r, modified)
    requires !modified ==> (r.password.Some? ==> r.password.value.Digest?)
    ensures StoredForm(AfterHook(r, modified), isEmail)
    ensures AfterHook(r, modified).password.Some? <==> r.password.Some?
  {
  }

  /**
   * `user.comparePassword(candidate)`: false without a stored password (no comparison is
   * attempted), otherwise bcrypt's comparison against the stored value.
   */
  predicate ComparePassword(r: Record, candidate: string)
    ensures ComparePassword(r, candidate) <==> r.password == Some(Hash(candidate))
  {
    HasPassword(r.password) && Compare(candidate, r.password.value)
  }

  /** For a password stored by the hook, the comparison accepts exactly the original plaintext. */
  lemma ComparePasswordOfHashed(r: Record, plain: string, candidate: string)
    requires r.password == Some(Hash(plain))
    ensures ComparePassword(r, candidate) <==> candidate == plain
  {
  }

  /** Without a stored password every candidate is refused. */
  lemma ComparePasswordWithoutPassword(r: Record, candidate: string)
    requires !HasPassword(r.password)
    ensures !ComparePassword(r, candidate)
  {
  }

  /** A loaded document: the fields a controller assigns before calling `save()`. */
  class UserDoc {
    const id: Id
    var name: string
    var email: string
    var password: Option<Secret>
    var googleId: Option<string>
    var isVerified: bool
    var otp: Option<string>
    var otpExpiresAt: Option<nat>
    /** The password path as last persisted (`None` for a new document). */
    var persistedPassword: Option<Secret>

    function Value(): Record
      reads this
    {
      Record(name, email, password, googleId, isVerified, otp, otpExpiresAt)
    }

    /** `this.isModified("password")` */
    predicate PasswordModified()
      reads this
    {
      password != persistedPassword
    }

    /** A document read from the collection. */
    constructor Loaded(id: Id, r: Record)
      ensures this.id == id && Value() == r && persistedPassword == r.password
    {
      this.id := id;
      name, email, password, googleId := r.name, r.email, r.password, r.googleId;
      isVerified, otp, otpExpiresAt := r.isVerified, r.otp, r.otpExpiresAt;
      persistedPassword := r.password;
    }

    /** A document `new User(...)` that has never been saved. */
    constructor Unsaved(id: Id, r: Record)
      ensures this.id == id && Value() == r && persistedPassword == None
    {
      this.id := id;
      name, email, password, googleId := r.name, r.email, r.password, r.googleId;
      isVerified, otp, otpExpiresAt := r.isVerified, r.otp, r.otpExpiresAt;
      persistedPassword := None;
    }

    /** The `pre("save")` hook: hash the password in place, only when it was modified. */
    method HashPasswordIfModified() returns (ok: bool)
      modifies this`password
      ensures ok <==> old(HookCanRun(Value(), PasswordModified()))
      ensures ok ==> Value() == AfterHook(old(Value()), old(PasswordModified()))
      ensures !ok ==> password == old(password)
    {
      if password == persistedPassword {
        return true;
      }
      match password {
        case Some(Plain(text)) =>
          password := Some(Hash(text));
          ok := true;
        case _ =>
          ok := false;
      }
    }
  }

  /**
   * The collection's invariant on values: ids below the next one, every document in stored
   * form, no two documents sharing an email or a present googleId.
   */
  ghost predicate Collection(records: map<Id, Record>, nextId: Id, isEmail: string -> bool)
  {
    (forall id :: id in records ==> id < nextId && StoredForm(records[id], isEmail)) &&
    (forall a, b :: a in records && b in records && a != b ==> records[a].email != records[b].email) &&
    (forall a, b :: a in records && b in records && a != b && records[a].googleId.Some? ==>
       records[a].googleId != records[b].googleId)
  }

  /** Adding a stored-form document under the next id, clear of both indexes, keeps the invariant. */
  lemma InsertKeepsCollection(records: map<Id, Record>, nextId: Id, isEmail: string -> bool, h: Record)
    requires Collection(records, nextId, isEmail) && StoredForm(h, isEmail)
    requires forall id :: id in records && id != nextId ==> records[id].email != h.email
    requires h.googleId.Some? ==> forall id :: id in records && id != nextId ==> records[id].googleId != h.googleId
    ensures Collection(records[nextId := h], nextId + 1, isEmail)
  {
  }

  /** The `users` collection: documents by id, with unique `email` and sparse unique `googleId`. */
  class Store {
    /** `validator.isEmail` */
    const isEmail: string -> bool
    var records: map<Id, Record>
    var nextId: Id

    /**
     * The collection's invariant: every document passes the schema, a password is only ever
     * held as a digest, and every account without a Google identity has a non-empty one.
     */
    ghost predicate Valid()
      reads this
      ensures Valid() ==> forall id :: id in records && records[id].password.Some? ==>
        records[id].password.value.Digest?
      ensures Valid() ==> forall id :: id in records && PasswordRequired(records[id]) ==>
        records[id].password.Some? && records[id].password.value.Digest?
    {
      Collection(records, nextId, isEmail)
    }

    constructor (isEmail: string -> bool)
      ensures Valid() && this.isEmail == isEmail && records == map[] && nextId == 0
    {
      this.isEmail := isEmail;
      records, nextId := map[], 0;
    }

    ghost predicate HasEmail(email: string)
      reads this
    {
      exists id :: id in records && records[id].email == email
    }

    ghost predicate HasGoogleId(googleId: string)
      reads this
    {
      exists id :: id in records && records[id].googleId == Some(googleId)
    }

    /** The unique document with that email. */
    ghost function EmailOwner(email: string): (id: Id)
      requires HasEmail(email)
      reads this
      ensures id in records && records[id].email == email
    {
      var id :| id in records && records[id].email == email; id
    }

    /** The unique document with that googleId. */
    ghost function GoogleOwner(googleId: string): (id: Id)
      requires HasGoogleId(googleId)
      reads this
      ensures id in records && records[id].googleId == Some(googleId)
    {
      var id :| id in records && records[id].googleId == Some(googleId); id
    }

    /** The unique indexes accept `r` written under id `self`. */
    predicate Unique(self: Id, r: Record)
      reads this
    {
      (forall id :: id in records && id != self ==> records[id].email != r.email) &&
      (r.googleId.Some? ==> forall id :: id in records && id != self ==> records[id].googleId != r.googleId)
    }

    /** A write that validation, the hook and the indexes all accept. */
    predicate Writable(self: Id, r: Record, modified: bool)
      reads this
    {
      SchemaValid(r, isEmail) && HookCanRun(r, modified) && Unique(self, r)
    }

    lemma StoredIsUnique(id: Id)
      requires Valid() && id in records
      ensures Unique(id, records[id])
    {
    }

    /**
     * Writing a stored document back with its validated and indexed paths (name, email,
     * password, googleId) untouched is always accepted.
     */
    lemma RewriteWritable(id: Id, r: Record)
      requires Valid() && id in records
      requires r.name == records[id].name && r.email == records[id].email
      requires r.password == records[id].password && r.googleId == records[id].googleId
      ensures Writable(id, r, false)
    {
      StoredIsUnique(id);
    }

    /** `User.findOne({ email })` */
    method FindByEmail(email: string) returns (doc: UserDoc?)
      requires Valid()
      ensures doc == null <==> !HasEmail(email)
      ensures doc != null ==> fresh(doc) && doc.id == EmailOwner(email) &&
                              doc.Value() == records[doc.id] && !doc.PasswordModified()
    {
      var matches := set id | id in records && records[id].email == email;
      assert HasEmail(email) ==> EmailOwner(email) in matches;
      if matches == {} {
        doc := null;
      } else {
        var id :| id in matches;
        doc := new UserDoc.Loaded(id, records[id]);
      }
    }

    /** `User.findOne({ googleId })` */
    method FindByGoogleId(googleId: string) returns (doc: UserDoc?)
      requires Valid()
      ensures doc == null <==> !HasGoogleId(googleId)
      ensures doc != null ==> fresh(doc) && doc.id == GoogleOwner(googleId) &&
                              doc.Value() == records[doc.id] && !doc.PasswordModified()
    {
      var matches := set id | id in records && records[id].googleId == Some(googleId);
      assert HasGoogleId(googleId) ==> GoogleOwner(googleId) in matches;
      if matches == {} {
        doc := null;
      } else {
        var id :| id in matches;
        doc := new UserDoc.Loaded(id, records[id]);
      }
    }

    /**
     * `doc.save()`: validate, run the pre-save hook, write through the unique indexes.
     * Any refusal leaves the collection and the document as they were. The document is
     * current: nothing was written under its id since it was read (the model is sequential).
     */
    method Save(doc: UserDoc) returns (ok: bool)
      requires Valid()
      requires doc.id in records ==> doc.persistedPassword == records[doc.id].password
      modifies this, doc
      ensures Valid() && nextId == old(nextId)
      ensures ok <==> old(doc.id in records && Writable(doc.id, doc.Value(), doc.PasswordModified()))
      ensures ok ==> records == old(records)[doc.id := AfterHook(old(doc.Value()), old(doc.PasswordModified()))]
      ensures ok ==> doc.Value() == records[doc.id] && !doc.PasswordModified()
      ensures !ok ==> records == old(records) && doc.Value() == old(doc.Value())
    {
      if doc.id !in records || !Writable(doc.id, doc.Value(), doc.PasswordModified()) {
        return false;
      }
      ghost var before := doc.Value();
      ghost var modified := doc.PasswordModified();
      assert !modified ==> before.password == records[doc.id].password;
      var hooked := doc.HashPasswordIfModified();
      AfterHookStored(before, modified, isEmail);
      records := records[doc.id := doc.Value()];
      doc.persistedPassword := doc.password;
      ok := true;
    }

    /** `User.create(u)`: a new document saved under a fresh id. */
    method Create(u: NewUser) returns (doc: UserDoc?)
      requires Valid()
      modifies this
      ensures Valid()
      ensures doc != null <==> old(Writable(nextId, Initial(u), u.password.Some?))
      ensures doc != null ==> fresh(doc) && doc.id == old(nextId) && nextId == old(nextId) + 1 &&
                              records == old(records)[doc.id := AfterHook(Initial(u), u.password.Some?)] &&
                              doc.Value() == records[doc.id]
      ensures doc == null ==> records == old(records) && nextId == old(nextId)
    {
      var r := Initial(u);
      if !Writable(nextId, r, u.password.Some?) {
        return null;
      }
      doc := new UserDoc.Unsaved(nextId, r);
      var hooked := doc.HashPasswordIfModified();
      AfterHookStored(r, u.password.Some?, isEmail);
      var h := doc.Value();
      assert h.email == r.email && h.googleId == r.googleId;
      InsertKeepsCollection(records, nextId, isEmail, h);
      records := records[nextId := h];
      doc.persistedPassword := doc.password;
      nextId := nextId + 1;
    }
  }
}
