/** Start-up of the KMS REST server: the host URL taken from a command-line
    flag or an environment variable, and the master key fetched from its store
    or generated and persisted on first use, which every key manager the KMS
    creator builds is locked with.

    The storage provider is the library's mock provider: one store whose open,
    get and put can each be made to fail with a given error. Only the store's
    master-key slot is modelled. Fresh key material is generated at random, so
    it enters as a parameter. */
module StartCmd {
  import opened Wrappers

  type Bytes = seq<bv8>

  /** Storage errors: the library's `ErrDataNotFound`, or any other error,
      known by its message. */
  datatype StoreError = ErrDataNotFound | StoreFailure(message: string)

  /** A store handle, reduced to the master-key record and the injected errors. */
  datatype Store = Store(masterKey: Option<Bytes>, errGet: Option<StoreError>, errPut: Option<StoreError>)

  /** A storage provider: `errOpenStoreHandle` makes every open fail. */
  datatype StoreProvider = StoreProvider(errOpenStoreHandle: Option<StoreError>, store: Store)

  /** `NewMockStoreProvider()`: an empty store that never fails. */
  const FreshProvider := StoreProvider(None, Store(None, None, None))

  /** Reading the master-key record: an injected error wins, and an absent
      record is `ErrDataNotFound`. */
  function Get(s: Store): (r: Result<Bytes, StoreError>)
    ensures r.Success? <==> s.errGet.None? && s.masterKey.Some?
    ensures r.Success? ==> r.value == s.masterKey.value
    ensures r.Failure? && s.errGet.Some? ==> r.error == s.errGet.value
    ensures s.errGet.None? && s.masterKey.None? ==> r == Failure(ErrDataNotFound)
  {
    match s.errGet
    case Some(e) => Failure(e)
    case None =>
      match s.masterKey
      case Some(k) => Success(k)
      case None => Failure(ErrDataNotFound)
  }

  /** Writing the master-key record: an injected error leaves the store as it
      was; otherwise the record holds the value written. */
  function Put(s: Store, value: Bytes): (r: Result<Store, StoreError>)
    ensures r.Success? <==> s.errPut.None?
    ensures r.Failure? ==> r.error == s.errPut.value
    ensures r.Success? ==> r.value.masterKey == Some(value)
    ensures r.Success? ==> Get(r.value) == (if s.errGet.Some? then Failure(s.errGet.value) else Success(value))
    ensures r.Success? ==> r.value.errGet == s.errGet && r.value.errPut == s.errPut
  {
    match s.errPut
    case Some(e) => Failure(e)
    case None => Success(s.(masterKey := Some(value)))
  }

  /** The reader over the master key handed to the secret-lock service. */
  datatype Reader = Reader(key: Bytes)

  /** The `(reader, err)` pair of `prepareMasterKeyReader`, with the store as
      it stands afterwards. */
  datatype Provisioned = Provisioned(reader: Result<Reader, StoreError>, store: Store)

  /** `prepareMasterKeyReader`: open the master-key store, read the key, and
      on `ErrDataNotFound` persist `generated` and return that. */
  function PrepareMasterKeyReader(p: StoreProvider, generated: Bytes): (r: Provisioned)
    // the open error is returned unchanged, with no reader
    ensures p.errOpenStoreHandle.Some? ==> r.reader == Failure(p.errOpenStoreHandle.value)
    // a read error other than not-found is returned unchanged; nothing is generated
    ensures p.errOpenStoreHandle.None? && p.store.errGet.Some? && p.store.errGet.value != ErrDataNotFound ==>
              r.reader == Failure(p.store.errGet.value)
    // a not-found read followed by a failed write returns the write error
    ensures p.errOpenStoreHandle.None? && Get(p.store) == Failure(ErrDataNotFound) && p.store.errPut.Some? ==>
              r.reader == Failure(p.store.errPut.value)
    // a not-found read followed by a successful write persists the generated key and hands it out
    ensures p.errOpenStoreHandle.None? && Get(p.store) == Failure(ErrDataNotFound) && p.store.errPut.None? ==>
              r.reader == Success(Reader(generated)) && r.store.masterKey == Some(generated)
    // a successful read hands out the stored key and writes nothing
    ensures p.errOpenStoreHandle.None? && Get(p.store).Success? ==>
              r == Provisioned(Success(Reader(Get(p.store).value)), p.store)
    // a key is handed out exactly in those two cases
    ensures r.reader.Success? <==>
              p.errOpenStoreHandle.None? &&
              (Get(p.store).Success? || (Get(p.store) == Failure(ErrDataNotFound) && p.store.errPut.None?))
    // an error handed back is one of the injected ones, never a new one
    ensures r.reader.Failure? ==>
              Some(r.reader.error) in {p.errOpenStoreHandle, p.store.errGet, p.store.errPut}
    // a failure leaves the store untouched
    ensures r.reader.Failure? ==> r.store == p.store
    // provisioning writes only the key record: the injected errors stay as they were
    ensures r.store.errGet == p.store.errGet && r.store.errPut == p.store.errPut
    // a key that is handed out is the one the store holds
    ensures r.reader.Success? ==> r.store.masterKey == Some(r.reader.value.key)
    // the store is written only when the read found nothing, and then with the generated key
    ensures r.store != p.store ==>
              Get(p.store) == Failure(ErrDataNotFound) && r.reader == Success(Reader(generated))
  {
    if p.errOpenStoreHandle.Some? then Provisioned(Failure(p.errOpenStoreHandle.value), p.store)
    else
      match Get(p.store)
      case Success(k) => Provisioned(Success(Reader(k)), p.store)
      case Failure(ErrDataNotFound) =>
        (match Put(p.store, generated)
         case Failure(e) => Provisioned(Failure(e), p.store)
         case Success(s) => Provisioned(Success(Reader(generated)), s))
      case Failure(e) => Provisioned(Failure(e), p.store)
  }

  /** On an empty, working store the generated key is persisted and returned. */
  lemma MasterKeyOnFreshStore(generated: Bytes)
    ensures PrepareMasterKeyReader(FreshProvider, generated) ==
            Provisioned(Success(Reader(generated)), Store(Some(generated), None, None))
  {
  }

  /** Once a key has been handed out by a store whose reads do not fail, the
      next call on the store it left reads that same key back and generates
      nothing: the get-or-create is a create only the first time. */
  lemma ProvisionedKeyIsStable(p: StoreProvider, generated: Bytes, regenerated: Bytes)
    requires p.store.errGet.None?
    requires PrepareMasterKeyReader(p, generated).reader.Success?
    ensures var first := PrepareMasterKeyReader(p, generated);
            PrepareMasterKeyReader(p.(store := first.store), regenerated) == first
  {
  }

  /** A local key manager for one keystore, locked with the master key. */
  datatype KeyManager = LocalKMS(keystoreID: string, masterKey: Bytes)

  /** One call of the KMS creator: the key manager or the error, and the
      provider as the call left it. The creator closes over one provider, so
      the next call sees the store this one wrote. */
  datatype Created = Created(kms: Result<KeyManager, StoreError>, provider: StoreProvider)

  /** The KMS creator returned by `prepareKMSCreator`, called for one keystore:
      it prepares the master-key reader and fails with that error, or builds a
      key manager locked with the key read. */
  function CreateKMS(p: StoreProvider, generated: Bytes, keystoreID: string): (r: Created)
    ensures var m := PrepareMasterKeyReader(p, generated);
            && (r.kms.Success? <==> m.reader.Success?)
            && (r.kms.Failure? ==> r.kms.error == m.reader.error)
            && (r.kms.Success? ==> r.kms.value == LocalKMS(keystoreID, m.reader.value.key))
            && r.provider == p.(store := m.store)
    ensures p.errOpenStoreHandle.Some? ==> r.kms == Failure(p.errOpenStoreHandle.value)
    // the key the manager is locked with is the one the shared store now holds
    ensures r.kms.Success? ==> r.provider.store.masterKey == Some(r.kms.value.masterKey)
    // a failed call leaves the provider as it was
    ensures r.kms.Failure? ==> r.provider == p
  {
    var m := PrepareMasterKeyReader(p, generated);
    match m.reader
    case Failure(e) => Created(Failure(e), p)
    case Success(reader) => Created(Success(LocalKMS(keystoreID, reader.key)), p.(store := m.store))
  }

  /** Successive creator calls share the provider: once one call has built a
      key manager, a later call, for any keystore, is locked with the same key
      and writes nothing. */
  lemma CreatorReusesPersistedKey(p: StoreProvider, generated: Bytes, regenerated: Bytes,
                                  firstID: string, secondID: string)
    requires p.store.errGet.None?
    requires CreateKMS(p, generated, firstID).kms.Success?
    ensures var first := CreateKMS(p, generated, firstID);
            var second := CreateKMS(first.provider, regenerated, secondID);
            && second.kms == Success(LocalKMS(secondID, first.kms.value.masterKey))
            && second.provider == first.provider
  {
    ProvisionedKeyIsStable(p, generated, regenerated);
  }

  /** On an empty, working store the creator returns a key manager. */
  lemma CreateKMSOnFreshStore(generated: Bytes, keystoreID: string)
    ensures CreateKMS(FreshProvider, generated, keystoreID).kms == Success(LocalKMS(keystoreID, generated))
  {
  }

  /** The flag and environment variable that carry the host URL. */
  const HostURLFlagName := "host-url"
  const HostURLEnvKey := "KMS_REST_HOST_URL"

  /** The error for a source that is present but blank follows its name. */
  const EmptySuffix := " value is empty"

  lemma EmptyValueMessages()
    ensures HostURLFlagName + EmptySuffix == "host-url value is empty"
    ensures HostURLEnvKey + EmptySuffix == "KMS_REST_HOST_URL value is empty"
  {
  }

  /** The error when neither source of the host URL is present. */
  const NeitherSetMessage :=
    "Neither host-url (command line flag) nor KMS_REST_HOST_URL (environment variable) have been set."

  /** The host URL: a flag that was given wins, and must not be blank; then an
      environment variable that is set, which must not be blank either; with
      neither, a message naming both. */
  function GetHostURL(flag: Option<string>, env: Option<string>): (r: Result<string, string>)
    ensures flag == Some("") ==> r == Failure("host-url value is empty")
    ensures flag.None? && env == Some("") ==> r == Failure("KMS_REST_HOST_URL value is empty")
    ensures flag.None? && env.None? ==>
              r == Failure("Neither host-url (command line flag) nor KMS_REST_HOST_URL (environment variable) have been set.")
    ensures r.Success? <==> (flag.Some? && flag.value != "") || (flag.None? && env.Some? && env.value != "")
    ensures r.Success? ==> r.value != "" && r.value == (if flag.Some? then flag.value else env.value)
  {
    match flag
    case Some(v) =>
      if v == "" then (EmptyValueMessages(); Failure(HostURLFlagName + EmptySuffix)) else Success(v)
    case None =>
      match env
      case Some(v) =>
        if v == "" then (EmptyValueMessages(); Failure(HostURLEnvKey + EmptySuffix)) else Success(v)
      case None =>
        Failure(NeitherSetMessage)
  }

  /** The outcome of executing the start command: the error it returns, and
      the host the server was asked to listen on, if it was started. */
  datatype Started = Started(err: Option<string>, listenedOn: Option<string>)

  /** Executing the start command: resolve the host URL, then hand it to the
      server, whose `ListenAndServe` returns `serve(host)`. */
  function Start(flag: Option<string>, env: Option<string>, serve: string -> Option<string>): (r: Started)
    ensures GetHostURL(flag, env).Failure? ==> r == Started(Some(GetHostURL(flag, env).error), None)
    ensures GetHostURL(flag, env).Success? ==>
              r.listenedOn == Some(GetHostURL(flag, env).value) && r.err == serve(r.listenedOn.value)
  {
    match GetHostURL(flag, env)
    case Failure(e) => Started(Some(e), None)
    case Success(host) => Started(serve(host), Some(host))
  }

  /** With a server that always starts, a non-blank host from the flag, or from
      the environment when no flag is given, lets the command succeed. */
  lemma StartSucceedsWithHost(flag: Option<string>, env: Option<string>, serve: string -> Option<string>)
    requires forall h :: serve(h) == None
    requires (flag.Some? && flag.value != "") || (flag.None? && env.Some? && env.value != "")
    ensures Start(flag, env, serve).err == None
  {
  }
}
