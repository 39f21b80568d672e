/** `translateConfigFile`: the fixed sequence of section migrations that flattens a legacy
    (XML-read) configuration into the current layout, ending with `remIfEmpty(root)`.

    Each section is a method that takes the root Struct and returns it edited. The source keeps
    references to sub-Structs (`scope`, `caches`, `cacheHandlers`, `cfx`) while it edits `root`;
    here such a sub-Struct is a value that the section stores back under its key. No rule writes
    a root key that one of those sub-Structs lives under, so storing back at the end of the
    section gives the same tree. A run of consecutive `move(key, from, to)` calls with the same
    `from` and `to` is one `MoveEach` over the keys, in the source's order. */
module Migration {
  import opened Wrappers
  import opened ConfigTree
  import opened KeyedLists
  import opened Pruning

  /** Fields moved unchanged from `regional` to the root. */
  const RegionalFields: seq<string> := ["timezone", "locale", "timeserver", "useTimeserver"]

  /** Fields moved unchanged from `application` to the root before the `cachedWithin` loop. */
  const EarlyApplicationFields: seq<string> := ["listenerType", "listenerMode", "typeChecking", "cachedAfter"]

  /** Fields moved unchanged from `application` to the root after the request timeouts. */
  const LateApplicationFields: seq<string> :=
    ["scriptProtect", "classicDateParsing", "cacheDirectory", "cacheDirectoryMaxSize"]

  /** Fields moved unchanged from `compiler` to the root after `nullSupport`. */
  const CompilerFlags: seq<string> :=
    ["defaultFunctionOutput", "externalizeStringGte", "allowLuceeDialect", "handleUnquotedAttributeValueAsString"]

  /** `templateCharset` comes from `charset.templateCharset`, else from the deprecated
      `fileSystem.encoding`, else from `fileSystem.charset`, else stays as it was. */
  method MergeTemplateCharset(charset: Fields, fileSystem: Fields, root: Fields) returns (charset': Fields, root': Fields)
    ensures Get(root', "templateCharset") ==
              Get(charset, "templateCharset").Or(Get(fileSystem, "encoding")).Or(Get(fileSystem, "charset"))
                .Or(Get(root, "templateCharset"))
    ensures forall k :: k != "templateCharset" ==> Get(charset', k) == Get(charset, k) && Get(root', k) == Get(root, k)
    ensures Textless(charset) && Textless(fileSystem) && Textless(root) ==> Textless(charset') && Textless(root')
  {
    root' := Copy("charset", "templateCharset", fileSystem, root);  // deprecated alias
    root' := Copy("encoding", "templateCharset", fileSystem, root');  // deprecated alias
    charset', root' := Move("templateCharset", charset, root');
  }

  /** `webCharset` comes from `charset.webCharset`, else from the deprecated
      `regional.defaultEncoding`, `fileSystem.encoding` and `charset.charset` in that order, else
      stays as it was; `charset.charset` is consumed. */
  method MergeWebCharset(charset: Fields, regional: Fields, fileSystem: Fields, root: Fields)
    returns (charset': Fields, root': Fields)
    ensures Get(root', "webCharset") ==
              Get(charset, "webCharset").Or(Get(regional, "defaultEncoding")).Or(Get(fileSystem, "encoding"))
                .Or(Get(charset, "charset")).Or(Get(root, "webCharset"))
    ensures forall k :: k != "webCharset" ==> Get(root', k) == Get(root, k)
    ensures forall k :: k != "webCharset" && k != "charset" ==> Get(charset', k) == Get(charset, k)
    ensures Textless(charset) && Textless(regional) && Textless(fileSystem) && Textless(root) ==>
              Textless(charset') && Textless(root')
  {
    charset', root' := MoveAs("charset", "webCharset", charset, root);  // deprecated alias
    root' := Copy("encoding", "webCharset", fileSystem, root');  // deprecated alias
    root' := Copy("defaultEncoding", "webCharset", regional, root');  // deprecated alias
    charset', root' := Move("webCharset", charset', root');
  }

  /** `resourceCharset` comes from `charset.resourceCharset`, else from the deprecated
      `fileSystem.encoding`, else from `fileSystem.charset`, else stays as it was. */
  method MergeResourceCharset(charset: Fields, fileSystem: Fields, root: Fields) returns (charset': Fields, root': Fields)
    ensures Get(root', "resourceCharset") ==
              Get(charset, "resourceCharset").Or(Get(fileSystem, "encoding")).Or(Get(fileSystem, "charset"))
                .Or(Get(root, "resourceCharset"))
    ensures forall k :: k != "resourceCharset" ==> Get(charset', k) == Get(charset, k) && Get(root', k) == Get(root, k)
    ensures Textless(charset) && Textless(fileSystem) && Textless(root) ==> Textless(charset') && Textless(root')
  {
    root' := Copy("charset", "resourceCharset", fileSystem, root);  // deprecated alias
    root' := Copy("encoding", "resourceCharset", fileSystem, root');  // deprecated alias
    charset', root' := Move("resourceCharset", charset, root');
  }

  /** The three charset merges in the source's order. */
  method MergeCharsets(charset: Fields, regional: Fields, fileSystem: Fields, root: Fields) returns (root': Fields)
    ensures Get(root', "templateCharset") ==
              Get(charset, "templateCharset").Or(Get(fileSystem, "encoding")).Or(Get(fileSystem, "charset"))
                .Or(Get(root, "templateCharset"))
    ensures Get(root', "webCharset") ==
              Get(charset, "webCharset").Or(Get(regional, "defaultEncoding")).Or(Get(fileSystem, "encoding"))
                .Or(Get(charset, "charset")).Or(Get(root, "webCharset"))
    ensures Get(root', "resourceCharset") ==
              Get(charset, "resourceCharset").Or(Get(fileSystem, "encoding")).Or(Get(fileSystem, "charset"))
                .Or(Get(root, "resourceCharset"))
    ensures forall k :: k != "templateCharset" && k != "webCharset" && k != "resourceCharset" ==>
              Get(root', k) == Get(root, k)
    ensures Textless(charset) && Textless(regional) && Textless(fileSystem) && Textless(root) ==> Textless(root')
  {
    CharsetLiteralsApart();
    var charset' := charset;
    charset', root' := MergeTemplateCharset(charset', fileSystem, root);
    charset', root' := MergeWebCharset(charset', regional, fileSystem, root');
    charset', root' := MergeResourceCharset(charset', fileSystem, root');
  }

  /** The charset section: the three charsets are merged from their aliases; the `charset`
      container is removed; `regional` and `fileSystem` are only read, and created empty when
      missing. */
  method TranslateCharset(root0: Fields) returns (root: Fields)
    ensures var charset := StructAt(root0, "charset");
            var regional := StructAt(root0, "regional");
            var fileSystem := StructAt(root0, "fileSystem");
            && Get(root, "templateCharset") ==
                 Get(charset, "templateCharset").Or(Get(fileSystem, "encoding")).Or(Get(fileSystem, "charset"))
                   .Or(Get(root0, "templateCharset"))
            && Get(root, "webCharset") ==
                 Get(charset, "webCharset").Or(Get(regional, "defaultEncoding")).Or(Get(fileSystem, "encoding"))
                   .Or(Get(charset, "charset")).Or(Get(root0, "webCharset"))
            && Get(root, "resourceCharset") ==
                 Get(charset, "resourceCharset").Or(Get(fileSystem, "encoding")).Or(Get(fileSystem, "charset"))
                   .Or(Get(root0, "resourceCharset"))
            && "charset" !in root
            && Get(root, "regional") == Some(Struct(regional))
            && Get(root, "fileSystem") == Some(Struct(fileSystem))
    ensures forall k :: k != "templateCharset" && k != "webCharset" && k != "resourceCharset" && k != "charset" &&
                        k != "regional" && k != "fileSystem" ==>
              Get(root, k) == Get(root0, k)
    ensures Textless(root0) ==> Textless(root)
  {
    CharsetLiteralsApart();
    var charset, regional, fileSystem;
    charset, root := GetAsStruct("charset", root0);
    regional, root := GetAsStruct("regional", root);
    fileSystem, root := GetAsStruct("fileSystem", root);
    root := MergeCharsets(charset, regional, fileSystem, root);
    root := Rem("charset", root);
  }

  /** The literal keys of the charset section are apart. */
  lemma CharsetLiteralsApart()
    ensures "templateCharset" != "webCharset" && "templateCharset" != "resourceCharset"
    ensures "webCharset" != "resourceCharset" && "charset" != "resourceCharset"
    ensures "charset" != "templateCharset" && "charset" != "webCharset"
    ensures "regional" != "charset" && "fileSystem" != "charset" && "fileSystem" != "regional"
    ensures "regional" != "templateCharset" && "regional" != "webCharset" && "regional" != "resourceCharset"
    ensures "fileSystem" != "templateCharset" && "fileSystem" != "webCharset" && "fileSystem" != "resourceCharset"
  {
  }

  /** The regional section: its four fields move to the root when present; `regional` is removed. */
  method TranslateRegional(root0: Fields) returns (root: Fields)
    ensures forall k :: k in RegionalFields ==> Get(root, k) == Get(StructAt(root0, "regional"), k).Or(Get(root0, k))
    ensures "regional" !in root
    ensures forall k :: k !in RegionalFields && k != "regional" ==> Get(root, k) == Get(root0, k)
    ensures Textless(root0) ==> Textless(root)
  {
    var regional;
    regional, root := GetAsStruct("regional", root0);
    regional, root := MoveEach(RegionalFields, regional, root);
    root := Rem("regional", root);
  }

  /** `requestTimeout` comes from `application.requesttimeout`, else from the deprecated
      `scope.requesttimeout`, else stays as it was; both sources are consumed. */
  method MergeRequestTimeout(application: Fields, scope: Fields, root: Fields)
    returns (application': Fields, scope': Fields, root': Fields)
    ensures Get(root', "requestTimeout") ==
              Get(application, "requesttimeout").Or(Get(scope, "requesttimeout")).Or(Get(root, "requestTimeout"))
    ensures scope' == Rem("requesttimeout", scope)
    ensures forall k :: k != "requesttimeout" ==> Get(application', k) == Get(application, k)
    ensures forall k :: k != "requestTimeout" ==> Get(root', k) == Get(root, k)
    ensures Textless(application) && Textless(scope) && Textless(root) ==>
              Textless(application') && Textless(scope') && Textless(root')
  {
    scope', root' := MoveAs("requesttimeout", "requestTimeout", scope, root);  // deprecated alias
    application', root' := MoveAs("requesttimeout", "requestTimeout", application, root');
    FieldsEqual(scope', Rem("requesttimeout", scope));
  }

  /** `adminSync` comes from `application.adminSync`, else from the older spelling
      `application.adminSynchronisation`, else stays as it was. */
  method MergeAdminSync(application: Fields, root: Fields) returns (application': Fields, root': Fields)
    ensures Get(root', "adminSync") ==
              Get(application, "adminSync").Or(Get(application, "adminSynchronisation")).Or(Get(root, "adminSync"))
    ensures forall k :: k != "adminSync" && k != "adminSynchronisation" ==> Get(application', k) == Get(application, k)
    ensures forall k :: k != "adminSync" ==> Get(root', k) == Get(root, k)
    ensures Textless(application) && Textless(root) ==> Textless(application') && Textless(root')
  {
    application', root' := MoveAs("adminSynchronisation", "adminSync", application, root);
    application', root' := Move("adminSync", application', root');
  }

  /** The application moves before the request timeouts: the early fields, one
      `cachedWithin<Type>` per cache type, and `allowUrlRequesttimeout` as `requestTimeoutInURL`. */
  method MoveEarlyApplicationSettings(application: Fields, root: Fields, cacheTypes: seq<string>)
    returns (application': Fields, root': Fields)
    ensures forall k :: k in EarlyApplicationFields ==> Get(root', k) == Get(application, k).Or(Get(root, k))
    ensures forall t :: t in cacheTypes ==>
              var key := PrefixedKey("cachedWithin", t);
              Get(root', key) == Get(application, key).Or(Get(root, key))
    ensures Get(root', "requestTimeoutInURL") ==
              Get(application, "allowUrlRequesttimeout").Or(Get(root, "requestTimeoutInURL"))
    ensures forall k | k !in PrefixedKeys("cachedWithin", cacheTypes) ::
              k !in EarlyApplicationFields && k != "allowUrlRequesttimeout" ==> Get(application', k) == Get(application, k)
    ensures forall k | k !in PrefixedKeys("cachedWithin", cacheTypes) ::
              k !in EarlyApplicationFields && k != "requestTimeoutInURL" ==> Get(root', k) == Get(root, k)
    ensures Textless(application) && Textless(root) ==> Textless(application') && Textless(root')
  {
    EarlyApplicationFieldsApart(cacheTypes);
    application', root' := MoveEach(EarlyApplicationFields, application, root);
    application', root' := MoveEachPrefixed("cachedWithin", cacheTypes, application', root');
    application', root' := MoveAs("allowUrlRequesttimeout", "requestTimeoutInURL", application', root');
    forall t | t in cacheTypes
      ensures var key := PrefixedKey("cachedWithin", t);
              Get(root', key) == Get(application, key).Or(Get(root, key))
    {
      CachedWithinKeyApart(t);
    }
  }

  /** The application moves from the request timeouts on: `requestTimeout`, the late fields and
      `adminSync`; `scope` loses its `requesttimeout`. */
  method MoveLateApplicationSettings(application: Fields, scope: Fields, root: Fields)
    returns (scope': Fields, root': Fields)
    ensures forall k :: k in LateApplicationFields ==> Get(root', k) == Get(application, k).Or(Get(root, k))
    ensures Get(root', "requestTimeout") ==
              Get(application, "requesttimeout").Or(Get(scope, "requesttimeout")).Or(Get(root, "requestTimeout"))
    ensures Get(root', "adminSync") ==
              Get(application, "adminSync").Or(Get(application, "adminSynchronisation")).Or(Get(root, "adminSync"))
    ensures scope' == Rem("requesttimeout", scope)
    ensures forall k :: k !in LateApplicationFields && k != "requestTimeout" && k != "adminSync" ==>
              Get(root', k) == Get(root, k)
    ensures Textless(application) && Textless(scope) && Textless(root) ==> Textless(scope') && Textless(root')
  {
    LateApplicationFieldsApart();
    var application' := application;
    application', scope', root' := MergeRequestTimeout(application', scope, root);
    application', root' := MoveEach(LateApplicationFields, application', root');
    application', root' := MergeAdminSync(application', root');
  }

  /** The application section up to `requestTimeoutInURL`: `application` and `scope` are fetched
      (created empty when missing) and the early moves are made. */
  method BeginApplication(root0: Fields, cacheTypes: seq<string>) returns (application: Fields, scope: Fields, root: Fields)
    ensures scope == StructAt(root0, "scope")
    ensures forall k :: k in EarlyApplicationFields ==>
              Get(root, k) == Get(StructAt(root0, "application"), k).Or(Get(root0, k))
    ensures forall t :: t in cacheTypes ==>
              var key := PrefixedKey("cachedWithin", t);
              Get(root, key) == Get(StructAt(root0, "application"), key).Or(Get(root0, key))
    ensures Get(root, "requestTimeoutInURL") ==
              Get(StructAt(root0, "application"), "allowUrlRequesttimeout").Or(Get(root0, "requestTimeoutInURL"))
    ensures forall k | k !in PrefixedKeys("cachedWithin", cacheTypes) ::
              k !in EarlyApplicationFields && k != "allowUrlRequesttimeout" ==>
                Get(application, k) == Get(StructAt(root0, "application"), k)
    ensures forall k | k !in PrefixedKeys("cachedWithin", cacheTypes) ::
              k !in EarlyApplicationFields && k != "requestTimeoutInURL" && k != "application" && k != "scope" ==>
                Get(root, k) == Get(root0, k)
    ensures Textless(root0) ==> Textless(application) && Textless(scope) && Textless(root)
  {
    ApplicationLiteralsApart();
    EarlyApplicationFieldsApart(cacheTypes);
    var application0;
    application0, root := GetAsStruct("application", root0);
    scope, root := GetAsStruct("scope", root);
    application, root := MoveEarlyApplicationSettings(application0, root, cacheTypes);
    forall t | t in cacheTypes
      ensures var key := PrefixedKey("cachedWithin", t);
              Get(root, key) == Get(StructAt(root0, "application"), key).Or(Get(root0, key))
    {
      CachedWithinKeyApart(t);
    }
  }

  /** The application section from the request timeouts on: the late moves, then `application`
      is removed and `scope`, without its `requesttimeout`, is stored back. */
  method FinishApplication(application: Fields, scope: Fields, root0: Fields) returns (root: Fields)
    ensures forall k :: k in LateApplicationFields ==> Get(root, k) == Get(application, k).Or(Get(root0, k))
    ensures Get(root, "requestTimeout") ==
              Get(application, "requesttimeout").Or(Get(scope, "requesttimeout")).Or(Get(root0, "requestTimeout"))
    ensures Get(root, "adminSync") ==
              Get(application, "adminSync").Or(Get(application, "adminSynchronisation")).Or(Get(root0, "adminSync"))
    ensures "application" !in root
    ensures Get(root, "scope") == Some(Struct(Rem("requesttimeout", scope)))
    ensures forall k :: k !in LateApplicationFields && k != "requestTimeout" && k != "adminSync" &&
                        k != "application" && k != "scope" ==>
              Get(root, k) == Get(root0, k)
    ensures Textless(application) && Textless(scope) && Textless(root0) ==> Textless(root)
  {
    ApplicationLiteralsApart();
    LateApplicationFieldsApart();
    var scope';
    scope', root := MoveLateApplicationSettings(application, scope, root0);
    root := Rem("application", root);
    root := root["scope" := Struct(scope')];
  }

  /** The application section: its fields move to the root, `allowUrlRequesttimeout` as
      `requestTimeoutInURL`, with the merges above; `application` is removed, while `scope`
      stays without its `requesttimeout`. */
  method TranslateApplication(root0: Fields, cacheTypes: seq<string>) returns (root: Fields)
    ensures ApplicationMigrated(root, root0, cacheTypes) && "application" !in root
    ensures forall k :: !WrittenByApplication(k, cacheTypes) ==> Get(root, k) == Get(root0, k)
    ensures Textless(root0) ==> Textless(root)
  {
    ApplicationLiteralsApart();
    EarlyApartFromLate();
    LateApartFromEarly(cacheTypes);
    LateLiteralsNotCachedWithin(cacheTypes);
    var application, scope, root1;
    application, scope, root1 := BeginApplication(root0, cacheTypes);
    root := FinishApplication(application, scope, root1);
    forall t | t in cacheTypes
      ensures var key := PrefixedKey("cachedWithin", t);
              Get(root, key) == Get(StructAt(root0, "application"), key).Or(Get(root0, key))
    {
      CachedWithinKeyApart(t);
    }
  }

  /** The early application fields clash with no other key that section touches. */
  lemma EarlyApplicationFieldsApart(types: seq<string>)
    ensures forall k :: k in EarlyApplicationFields ==>
              k !in PrefixedKeys("cachedWithin", types) && k != "allowUrlRequesttimeout" && k != "requestTimeoutInURL"
    ensures "allowUrlRequesttimeout" !in PrefixedKeys("cachedWithin", types)
    ensures "requestTimeoutInURL" !in PrefixedKeys("cachedWithin", types)
  {
    forall k | k in EarlyApplicationFields ensures k !in PrefixedKeys("cachedWithin", types) {
      NotPrefixed("cachedWithin", types, k, 6);
    }
    NotPrefixed("cachedWithin", types, "allowUrlRequesttimeout", 6);
    NotPrefixed("cachedWithin", types, "requestTimeoutInURL", 6);
  }

  /** The late application fields clash with no other key that section touches. */
  lemma LateApplicationFieldsApart()
    ensures forall k :: k in LateApplicationFields ==>
              k != "requesttimeout" && k != "requestTimeout" && k != "adminSynchronisation" && k != "adminSync"
  {
  }

  /** The early application fields are apart from the keys the late moves touch. */
  lemma EarlyApartFromLate()
    ensures forall k :: k in EarlyApplicationFields ==>
              k !in LateApplicationFields && k != "requestTimeout" && k != "adminSync" &&
              k != "application" && k != "scope"
  {
  }

  /** The late application fields are apart from the keys the early moves touch. */
  lemma LateApartFromEarly(types: seq<string>)
    ensures forall k :: k in LateApplicationFields ==>
              k !in PrefixedKeys("cachedWithin", types) && k !in EarlyApplicationFields &&
              k != "allowUrlRequesttimeout" && k != "requestTimeoutInURL" && k != "application" && k != "scope"
  {
    forall k | k in LateApplicationFields ensures k !in PrefixedKeys("cachedWithin", types) {
      NotPrefixed("cachedWithin", types, k, 6);
    }
  }

  /** No generated `cachedWithin<Type>` key is one of the literal keys the late moves touch. */
  lemma LateLiteralsNotCachedWithin(types: seq<string>)
    ensures "requesttimeout" !in PrefixedKeys("cachedWithin", types)
    ensures "requestTimeout" !in PrefixedKeys("cachedWithin", types)
    ensures "adminSynchronisation" !in PrefixedKeys("cachedWithin", types)
    ensures "adminSync" !in PrefixedKeys("cachedWithin", types)
    ensures "scope" !in PrefixedKeys("cachedWithin", types)
  {
    NotPrefixed("cachedWithin", types, "requesttimeout", 6);
    NotPrefixed("cachedWithin", types, "requestTimeout", 6);
    NotPrefixed("cachedWithin", types, "adminSynchronisation", 6);
    NotPrefixed("cachedWithin", types, "adminSync", 6);
    NotPrefixed("cachedWithin", types, "scope", 5);
  }

  /** The literal keys of the application section are apart. */
  lemma ApplicationLiteralsApart()
    ensures "requestTimeoutInURL" !in LateApplicationFields && "requestTimeoutInURL" !in EarlyApplicationFields
    ensures "requestTimeoutInURL" != "requestTimeout" && "requestTimeoutInURL" != "adminSync"
    ensures "requestTimeoutInURL" != "application" && "requestTimeoutInURL" != "scope"
    ensures "allowUrlRequesttimeout" != "application" && "allowUrlRequesttimeout" != "scope"
    ensures "requestTimeout" !in EarlyApplicationFields && "requestTimeout" != "application" && "requestTimeout" != "scope"
    ensures "adminSync" !in EarlyApplicationFields && "adminSync" != "application" && "adminSync" != "scope"
    ensures "requesttimeout" !in EarlyApplicationFields && "requesttimeout" != "allowUrlRequesttimeout"
    ensures "adminSync" != "allowUrlRequesttimeout" && "adminSynchronisation" != "allowUrlRequesttimeout"
    ensures "adminSynchronisation" !in EarlyApplicationFields && "scope" != "application"
  {
  }

  /** A generated `cachedWithin<Type>` key is none of the literal keys of the application section. */
  lemma CachedWithinKeyApart(t: string)
    ensures var key := PrefixedKey("cachedWithin", t);
            && key !in EarlyApplicationFields && key !in LateApplicationFields
            && key != "allowUrlRequesttimeout" && key != "requestTimeoutInURL" && key != "requestTimeout"
            && key != "adminSync" && key != "application" && key != "scope"
  {
    assert PrefixedKey("cachedWithin", t)[6] == 'W';
  }

  /** The caches section up to the connections: `cache` and `caches` are fetched (created empty
      when missing), the `connection` Array is taken from `cache`, `caches.cache` moves to the
      root as `cacheClasses`, and the `default<Type>` fields move from `cache` to the root. */
  method BeginCaches(root0: Fields, cacheTypesMax: seq<string>)
    returns (connections: seq<Value>, caches: Fields, root: Fields)
    ensures connections == ItemsAt(StructAt(root0, "cache"), "connection")
    ensures caches == Rem("cache", StructAt(root0, "caches"))
    ensures Get(root, "cacheClasses") == Get(StructAt(root0, "caches"), "cache").Or(Get(root0, "cacheClasses"))
    ensures forall t :: t in cacheTypesMax ==>
              var key := PrefixedKey("default", t);
              Get(root, key) == Get(StructAt(root0, "cache"), key).Or(Get(root0, key))
    ensures forall k | k !in PrefixedKeys("default", cacheTypesMax) ::
              k != "cacheClasses" && k != "cache" && k != "caches" ==> Get(root, k) == Get(root0, k)
    ensures Textless(root0) ==>
              Textless(caches) && Textless(root) && forall i :: 0 <= i < |connections| ==> !HoldsText(connections[i])
  {
    CachesLiteralsApart(cacheTypesMax);
    var cache, cache';
    cache, root := GetAsStruct("cache", root0);
    caches, root := GetAsStruct("caches", root);
    connections, cache' := GetAsArray("connection", cache);
    caches, root := MoveAs("cache", "cacheClasses", caches, root);
    FieldsEqual(caches, Rem("cache", StructAt(root0, "caches")));
    cache', root := MoveEachPrefixed("default", cacheTypesMax, cache', root);
    forall t | t in cacheTypesMax
      ensures var key := PrefixedKey("default", t);
              Get(root, key) == Get(StructAt(root0, "cache"), key).Or(Get(root0, key))
    {
      DefaultKeyApart(t);
    }
  }

  /** The caches section: `cacheClasses` comes from `caches.cache`; the `default<Type>` fields
      move from `cache` to the root; every Struct in `cache.connection` is added to `caches` under
      its `name` (the last one wins on a repeated name, and the step fails on an unnamed one);
      `cache` is removed. */
  method TranslateCaches(root0: Fields, cacheTypesMax: seq<string>) returns (r: Result<Fields, TreeError>)
    ensures var connections := ItemsAt(StructAt(root0, "cache"), "connection");
            r.Success? <==> AllNamed(connections, "name")
    ensures var cache := StructAt(root0, "cache");
            var converted := KeyedInOrder(ItemsAt(cache, "connection"), "name", Rem("cache", StructAt(root0, "caches")));
            r.Success? ==>
              && converted.Success?
              && "cache" !in r.value
              && Get(r.value, "cacheClasses") == Get(StructAt(root0, "caches"), "cache").Or(Get(root0, "cacheClasses"))
              && Get(r.value, "caches") == Some(Struct(converted.value))
              && (forall t :: t in cacheTypesMax ==>
                    var key := PrefixedKey("default", t);
                    Get(r.value, key) == Get(cache, key).Or(Get(root0, key)))
    ensures r.Success? ==>
              forall k | k !in PrefixedKeys("default", cacheTypesMax) ::
                k != "cacheClasses" && k != "cache" && k != "caches" ==> Get(r.value, k) == Get(root0, k)
    ensures r.Success? && Textless(root0) ==> Textless(r.value)
  {
    CachesLiteralsApart(cacheTypesMax);
    var connections, caches, root;
    connections, caches, root := BeginCaches(root0, cacheTypesMax);
    var converted := AddEachByKey(connections, "name", caches);
    KeyedInOrderMeaning(connections, "name", caches);
    if converted.Failure? {
      return Failure(converted.error);
    }
    root := Rem("cache", root);
    if Textless(root0) {
      KeyedInOrderOfTextless(connections, "name", caches);
      TextlessStore(root, "caches", converted.value);
    }
    root := root["caches" := Struct(converted.value)];  // the source added to the Struct held under "caches"
    r := Success(root);
    forall t | t in cacheTypesMax
      ensures var key := PrefixedKey("default", t);
              Get(r.value, key) == Get(StructAt(root0, "cache"), key).Or(Get(root0, key))
    {
      DefaultKeyApart(t);
    }
  }

  /** The literal keys of the caches section are apart, and none is a `default<Type>` key. */
  lemma CachesLiteralsApart(types: seq<string>)
    ensures "cache" != "caches" && "cache" != "cacheClasses" && "caches" != "cacheClasses"
    ensures "cache" !in PrefixedKeys("default", types)
    ensures "caches" !in PrefixedKeys("default", types)
    ensures "cacheClasses" !in PrefixedKeys("default", types)
  {
    NotPrefixed("default", types, "cache", 0);
    NotPrefixed("default", types, "caches", 0);
    NotPrefixed("default", types, "cacheClasses", 0);
  }

  /** A generated `default<Type>` key is none of the literal keys of the caches section. */
  lemma DefaultKeyApart(t: string)
    ensures var key := PrefixedKey("default", t);
            && key != "connection" && key != "cache" && key != "caches" && key != "cacheClasses"
            && key != "cacheHandlers" && key != "extTags" && key != "cfx"
  {
    assert PrefixedKey("default", t)[0] == 'd';
  }

  /** The cache handlers loop: the elements of `handler` are visited from the end; each Struct is
      added to `handlers` under its `id` and removed from the Array, which, unless an element with
      the id `cacheHandler` replaced it, stays in `handlers` under `cacheHandler`. */
  method ConvertCacheHandlers(handler: seq<Value>, handlers: Fields) returns (r: Result<Fields, TreeError>)
    ensures var converted := KeyedInReverse(handler, "id", handlers);
            && (r.Success? <==> converted.Success?)
            && (r.Success? ==>
                  r.value == if HasEntryFor(handler, "id", "cacheHandler") then converted.value
                             else converted.value["cacheHandler" := Arr(NonStructs(handler))])
  {
    var remaining := handler;
    var converted := handlers;
    var attached := true;
    var i := |handler|;
    while i > 0
      invariant 0 <= i <= |handler|
      invariant remaining == handler[..i] + NonStructs(handler[i..])
      invariant KeyedInReverse(handler[i..], "id", handlers) == Success(converted)
      invariant attached <==> !HasEntryFor(handler[i..], "id", "cacheHandler")
    {
      i := i - 1;
      RemainingStep(handler, i, remaining);
      KeyedInReverseStep(handler, i, "id", handlers);
      HasEntryForCons(handler[i..], "id", "cacheHandler");
      var data := remaining[i];
      if data.Struct? {
        var id := IdOf(data, "id");
        var added := Add(Some(Stripped(data, "id")), id, converted);
        if added.Failure? {
          KeyedInReverseFailureSticks(handler, "id", handlers, i);
          return Failure(added.error);
        }
        converted := added.value;
        attached := attached && id != Some("cacheHandler");
        remaining := remaining[..i] + remaining[i + 1..];
      }
    }
    assert handler[0..] == handler;
    assert remaining == NonStructs(handler);
    if attached {
      converted := converted["cacheHandler" := Arr(remaining)];
    }
    r := Success(converted);
  }

  /** One step of the cache handlers loop on the Array: the element at `i` is still in place,
      and removing it exactly when it is a Struct leaves the elements before `i` followed by the
      non-Struct elements from `i` on. */
  lemma RemainingStep(handler: seq<Value>, i: nat, remaining: seq<Value>)
    requires i < |handler|
    requires remaining == handler[..i + 1] + NonStructs(handler[i + 1..])
    ensures remaining[i] == handler[i]
    ensures handler[i].Struct? ==> remaining[..i] + remaining[i + 1..] == handler[..i] + NonStructs(handler[i..])
    ensures !handler[i].Struct? ==> remaining == handler[..i] + NonStructs(handler[i..])
  {
    assert handler[i..][1..] == handler[i + 1..];
    assert handler[..i + 1] == handler[..i] + [handler[i]];
    if handler[i].Struct? {
      assert remaining[..i] == handler[..i];
      assert remaining[i + 1..] == NonStructs(handler[i + 1..]);
    }
  }

  /** The cache handlers section: every Struct in `cacheHandlers.cacheHandler` is added to
      `cacheHandlers` under its `id`, visiting the Array from its end, so the first element wins on
      a repeated id and only the non-Struct elements stay in the Array. */
  method TranslateCacheHandlers(root0: Fields) returns (r: Result<Fields, TreeError>)
    ensures var items := ItemsAt(StructAt(root0, "cacheHandlers"), "cacheHandler");
            r.Success? <==> AllNamed(items, "id")
    ensures var handlers := StructAt(root0, "cacheHandlers");
            var items := ItemsAt(handlers, "cacheHandler");
            var converted := KeyedInReverse(items, "id", handlers["cacheHandler" := Arr(items)]);
            r.Success? ==>
              && converted.Success?
              && Get(r.value, "cacheHandlers") ==
                   Some(Struct(if HasEntryFor(items, "id", "cacheHandler") then converted.value
                               else converted.value["cacheHandler" := Arr(NonStructs(items))]))
    ensures r.Success? ==> forall k :: k != "cacheHandlers" ==> Get(r.value, k) == Get(root0, k)
    ensures r.Success? && Textless(root0) ==> Textless(r.value)
  {
    var root, handlers, handler;
    handlers, root := GetAsStruct("cacheHandlers", root0);
    handler, handlers := GetAsArray("cacheHandler", handlers);
    FieldsEqual(handlers, StructAt(root0, "cacheHandlers")["cacheHandler" := Arr(handler)]);
    KeyedInReverseMeaning(handler, "id", handlers);
    var converted := ConvertCacheHandlers(handler, handlers);
    if converted.Failure? {
      return Failure(converted.error);
    }
    if Textless(root0) {
      KeyedInReverseOfTextless(handler, "id", handlers);
      NonStructsOfTextless(handler);
      assert Textless(converted.value);
      TextlessStore(root, "cacheHandlers", converted.value);
    }
    r := Success(root["cacheHandlers" := Struct(converted.value)]);  // the source edited the Struct held there
  }

  /** The CFX section: every Struct in `extTags.extTag` is added to `cfx` under its `name` (the
      last one wins on a repeated name, and the step fails on an unnamed one); `extTags` is
      removed. */
  method TranslateCfx(root0: Fields) returns (r: Result<Fields, TreeError>)
    ensures var items := ItemsAt(StructAt(root0, "extTags"), "extTag");
            r.Success? <==> AllNamed(items, "name")
    ensures var items := ItemsAt(StructAt(root0, "extTags"), "extTag");
            var converted := KeyedInOrder(items, "name", StructAt(root0, "cfx"));
            r.Success? ==>
              && converted.Success?
              && "extTags" !in r.value
              && Get(r.value, "cfx") == Some(Struct(converted.value))
    ensures r.Success? ==> forall k :: k != "extTags" && k != "cfx" ==> Get(r.value, k) == Get(root0, k)
    ensures r.Success? && Textless(root0) ==> Textless(r.value)
  {
    var root, extTags, extTag, cfx;
    extTags, root := GetAsStruct("extTags", root0);
    extTag, extTags := GetAsArray("extTag", extTags);
    cfx, root := GetAsStruct("cfx", root);
    var converted := AddEachByKey(extTag, "name", cfx);
    KeyedInOrderMeaning(extTag, "name", cfx);
    if converted.Failure? {
      return Failure(converted.error);
    }
    root := Rem("extTags", root);
    if Textless(root0) {
      KeyedInOrderOfTextless(extTag, "name", cfx);
      TextlessStore(root, "cfx", converted.value);
    }
    root := root["cfx" := Struct(converted.value)];  // the source added to the Struct held under "cfx"
    r := Success(root);
  }

  /** `suppressWhitespaceBeforeArgument` comes from `compiler.suppressWsBeforeArg`, else from the
      misspelt `compiler.supressWsBeforeArg`, else stays as it was. */
  method MergeSuppressWhitespace(compiler: Fields, root: Fields) returns (compiler': Fields, root': Fields)
    ensures Get(root', "suppressWhitespaceBeforeArgument") ==
              Get(compiler, "suppressWsBeforeArg").Or(Get(compiler, "supressWsBeforeArg"))
                .Or(Get(root, "suppressWhitespaceBeforeArgument"))
    ensures forall k :: k != "suppressWsBeforeArg" && k != "supressWsBeforeArg" ==> Get(compiler', k) == Get(compiler, k)
    ensures forall k :: k != "suppressWhitespaceBeforeArgument" ==> Get(root', k) == Get(root, k)
    ensures Textless(compiler) && Textless(root) ==> Textless(compiler') && Textless(root')
  {
    compiler', root' := MoveAs("supressWsBeforeArg", "suppressWhitespaceBeforeArgument", compiler, root);  // deprecated alias
    compiler', root' := MoveAs("suppressWsBeforeArg", "suppressWhitespaceBeforeArgument", compiler', root');
  }

  /** `dotNotationUpperCase` moves unchanged and `fullNullSupport` moves as `nullSupport`. */
  method MoveCompilerSwitches(compiler: Fields, root: Fields) returns (compiler': Fields, root': Fields)
    ensures Get(root', "dotNotationUpperCase") == Get(compiler, "dotNotationUpperCase").Or(Get(root, "dotNotationUpperCase"))
    ensures Get(root', "nullSupport") == Get(compiler, "fullNullSupport").Or(Get(root, "nullSupport"))
    ensures forall k :: k != "dotNotationUpperCase" && k != "fullNullSupport" ==> Get(compiler', k) == Get(compiler, k)
    ensures forall k :: k != "dotNotationUpperCase" && k != "nullSupport" ==> Get(root', k) == Get(root, k)
    ensures Textless(compiler) && Textless(root) ==> Textless(compiler') && Textless(root')
  {
    CompilerLiteralsApart();
    compiler', root' := Move("dotNotationUpperCase", compiler, root);
    compiler', root' := MoveAs("fullNullSupport", "nullSupport", compiler', root');
  }

  /** Every compiler move in the source's order. */
  method MoveCompilerSettings(compiler: Fields, root: Fields) returns (root': Fields)
    ensures Get(root', "suppressWhitespaceBeforeArgument") ==
              Get(compiler, "suppressWsBeforeArg").Or(Get(compiler, "supressWsBeforeArg"))
                .Or(Get(root, "suppressWhitespaceBeforeArgument"))
    ensures Get(root', "dotNotationUpperCase") == Get(compiler, "dotNotationUpperCase").Or(Get(root, "dotNotationUpperCase"))
    ensures Get(root', "nullSupport") == Get(compiler, "fullNullSupport").Or(Get(root, "nullSupport"))
    ensures forall k :: k in CompilerFlags ==> Get(root', k) == Get(compiler, k).Or(Get(root, k))
    ensures forall k :: k !in CompilerFlags && k != "suppressWhitespaceBeforeArgument" &&
                        k != "dotNotationUpperCase" && k != "nullSupport" ==>
              Get(root', k) == Get(root, k)
    ensures Textless(compiler) && Textless(root) ==> Textless(root')
  {
    CompilerLiteralsApart();
    var compiler' := compiler;
    compiler', root' := MergeSuppressWhitespace(compiler', root);
    compiler', root' := MoveCompilerSwitches(compiler', root');
    compiler', root' := MoveEach(CompilerFlags, compiler', root');
  }

  /** The compiler section: its fields move to the root, `fullNullSupport` as `nullSupport`, with
      the merge above; `compiler` is removed. */
  method TranslateCompiler(root0: Fields) returns (root: Fields)
    ensures CompilerMigrated(root, root0) && "compiler" !in root
    ensures forall k :: !WrittenByCompiler(k) ==> Get(root, k) == Get(root0, k)
    ensures Textless(root0) ==> Textless(root)
  {
    CompilerLiteralsApart();
    var compiler;
    compiler, root := GetAsStruct("compiler", root0);
    root := MoveCompilerSettings(compiler, root);
    root := Rem("compiler", root);
  }

  /** The keys of the compiler section are apart. */
  lemma CompilerLiteralsApart()
    ensures forall k :: k in CompilerFlags ==>
              && k != "supressWsBeforeArg" && k != "suppressWsBeforeArg" && k != "suppressWhitespaceBeforeArgument"
              && k != "dotNotationUpperCase" && k != "fullNullSupport" && k != "nullSupport" && k != "compiler"
    ensures "dotNotationUpperCase" != "supressWsBeforeArg" && "dotNotationUpperCase" != "suppressWsBeforeArg"
    ensures "fullNullSupport" != "supressWsBeforeArg" && "fullNullSupport" != "suppressWsBeforeArg"
    ensures "dotNotationUpperCase" != "suppressWhitespaceBeforeArgument" && "nullSupport" != "suppressWhitespaceBeforeArgument"
    ensures "dotNotationUpperCase" != "fullNullSupport" && "dotNotationUpperCase" != "nullSupport"
    ensures "compiler" != "suppressWhitespaceBeforeArgument" && "compiler" != "dotNotationUpperCase"
    ensures "compiler" != "nullSupport"
  {
  }

  /** The root keys the charset section writes or removes (it creates `regional`, which the
      regional section removes). */
  predicate WrittenByCharset(k: string) {
    || k == "templateCharset" || k == "webCharset" || k == "resourceCharset"
    || k == "charset" || k == "regional" || k == "fileSystem"
  }

  /** The root keys the application section writes or removes. */
  predicate WrittenByApplication(k: string, cacheTypes: seq<string>) {
    || k in PrefixedKeys("cachedWithin", cacheTypes) || k in EarlyApplicationFields || k in LateApplicationFields
    || k == "requestTimeoutInURL" || k == "requestTimeout" || k == "adminSync" || k == "application" || k == "scope"
  }

  /** The root keys the charset, regional and application sections write or remove. */
  predicate WrittenBySettings(k: string, cacheTypes: seq<string>) {
    WrittenByCharset(k) || k in RegionalFields || WrittenByApplication(k, cacheTypes)
  }

  /** The root keys the caches, cache handlers and CFX sections write or remove. */
  predicate WrittenByLists(k: string, cacheTypesMax: seq<string>) {
    || k in PrefixedKeys("default", cacheTypesMax) || k == "cacheClasses" || k == "cache" || k == "caches"
    || k == "cacheHandlers" || k == "extTags" || k == "cfx"
  }

  /** The root keys the compiler section writes or removes. */
  predicate WrittenByCompiler(k: string) {
    || k in CompilerFlags || k == "suppressWhitespaceBeforeArgument" || k == "dotNotationUpperCase"
    || k == "nullSupport" || k == "compiler"
  }

  /** What the charset and regional sections leave in `root`, read from the original root
      `root0`: each charset from its first present alias, each regional field from `regional`,
      a missing source leaving the old value, and `fileSystem` kept (created empty when
      missing). */
  predicate CharsetsMigrated(root: Fields, root0: Fields) {
    var charset, regional, fileSystem :=
      StructAt(root0, "charset"), StructAt(root0, "regional"), StructAt(root0, "fileSystem");
    && Get(root, "templateCharset") ==
         Get(charset, "templateCharset").Or(Get(fileSystem, "encoding")).Or(Get(fileSystem, "charset"))
           .Or(Get(root0, "templateCharset"))
    && Get(root, "webCharset") ==
         Get(charset, "webCharset").Or(Get(regional, "defaultEncoding")).Or(Get(fileSystem, "encoding"))
           .Or(Get(charset, "charset")).Or(Get(root0, "webCharset"))
    && Get(root, "resourceCharset") ==
         Get(charset, "resourceCharset").Or(Get(fileSystem, "encoding")).Or(Get(fileSystem, "charset"))
           .Or(Get(root0, "resourceCharset"))
    && (forall k :: k in RegionalFields ==> Get(root, k) == Get(regional, k).Or(Get(root0, k)))
    && Get(root, "fileSystem") == Some(Struct(fileSystem))
  }

  /** What the application section leaves in `root`, read from the original root `root0`: every
      field it moves with its precedence, and `scope` without its `requesttimeout`. */
  predicate ApplicationMigrated(root: Fields, root0: Fields, cacheTypes: seq<string>) {
    var application, scope := StructAt(root0, "application"), StructAt(root0, "scope");
    && (forall k :: k in EarlyApplicationFields ==> Get(root, k) == Get(application, k).Or(Get(root0, k)))
    && (forall k :: k in LateApplicationFields ==> Get(root, k) == Get(application, k).Or(Get(root0, k)))
    && (forall t :: t in cacheTypes ==>
          var key := PrefixedKey("cachedWithin", t);
          Get(root, key) == Get(application, key).Or(Get(root0, key)))
    && Get(root, "requestTimeoutInURL") == Get(application, "allowUrlRequesttimeout").Or(Get(root0, "requestTimeoutInURL"))
    && Get(root, "requestTimeout") ==
         Get(application, "requesttimeout").Or(Get(scope, "requesttimeout")).Or(Get(root0, "requestTimeout"))
    && Get(root, "adminSync") ==
         Get(application, "adminSync").Or(Get(application, "adminSynchronisation")).Or(Get(root0, "adminSync"))
    && Get(root, "scope") == Some(Struct(Rem("requesttimeout", scope)))
  }

  /** What the caches, cache handlers and CFX sections leave in `root`, read from the original
      root `root0`: each of the three conversions succeeded, `caches` and `cfx` hold the
      first-to-last conversions, `cacheHandlers` the last-to-first one (its Array reduced to the
      non-Structs unless an element with id `cacheHandler` replaced it), and `cacheClasses` and
      the `default<Type>` fields are moved from the caches containers. */
  predicate ListsMigrated(root: Fields, root0: Fields, cacheTypesMax: seq<string>) {
    var cache, caches := StructAt(root0, "cache"), StructAt(root0, "caches");
    var cachesConverted := KeyedInOrder(ItemsAt(cache, "connection"), "name", Rem("cache", caches));
    var handlers := StructAt(root0, "cacheHandlers");
    var items := ItemsAt(handlers, "cacheHandler");
    var handlersConverted := KeyedInReverse(items, "id", handlers["cacheHandler" := Arr(items)]);
    var cfxConverted := KeyedInOrder(ItemsAt(StructAt(root0, "extTags"), "extTag"), "name", StructAt(root0, "cfx"));
    && cachesConverted.Success? && handlersConverted.Success? && cfxConverted.Success?
    && Get(root, "cacheClasses") == Get(caches, "cache").Or(Get(root0, "cacheClasses"))
    && Get(root, "caches") == Some(Struct(cachesConverted.value))
    && (forall t :: t in cacheTypesMax ==>
          var key := PrefixedKey("default", t);
          Get(root, key) == Get(cache, key).Or(Get(root0, key)))
    && Get(root, "cacheHandlers") ==
         Some(Struct(if HasEntryFor(items, "id", "cacheHandler") then handlersConverted.value
                     else handlersConverted.value["cacheHandler" := Arr(NonStructs(items))]))
    && Get(root, "cfx") == Some(Struct(cfxConverted.value))
  }

  /** What the compiler section leaves in `root`, read from the original root `root0`. */
  predicate CompilerMigrated(root: Fields, root0: Fields) {
    var compiler := StructAt(root0, "compiler");
    && Get(root, "suppressWhitespaceBeforeArgument") ==
         Get(compiler, "suppressWsBeforeArg").Or(Get(compiler, "supressWsBeforeArg"))
           .Or(Get(root0, "suppressWhitespaceBeforeArgument"))
    && Get(root, "dotNotationUpperCase") == Get(compiler, "dotNotationUpperCase").Or(Get(root0, "dotNotationUpperCase"))
    && Get(root, "nullSupport") == Get(compiler, "fullNullSupport").Or(Get(root0, "nullSupport"))
    && (forall k :: k in CompilerFlags ==> Get(root, k) == Get(compiler, k).Or(Get(root0, k)))
  }

  /** No `default<Type>` key of the caches section is a compiler flag. Of the flags only
      `defaultFunctionOutput` has the `default` prefix, so only a cache type generating that key
      would let the caches and the compiler sections write the same root key. */
  predicate DefaultKeysApartFromCompiler(cacheTypesMax: seq<string>) {
    "defaultFunctionOutput" !in PrefixedKeys("default", cacheTypesMax)
  }

  /** What all the sections leave in `root`, read from the original root `root0`: every key a
      section writes holds what that section sets (for the list and compiler sections, as long
      as they write no common key), the legacy containers are gone, and every other key keeps
      its value. */
  ghost predicate SectionsMigrated(root: Fields, root0: Fields, cacheTypes: seq<string>, cacheTypesMax: seq<string>) {
    && CharsetsMigrated(root, root0) && ApplicationMigrated(root, root0, cacheTypes)
    && (DefaultKeysApartFromCompiler(cacheTypesMax) ==>
          ListsMigrated(root, root0, cacheTypesMax) && CompilerMigrated(root, root0))
    && "charset" !in root && "regional" !in root && "application" !in root
    && "cache" !in root && "extTags" !in root && "compiler" !in root
    && (forall k :: !WrittenBySettings(k, cacheTypes) && !WrittenByLists(k, cacheTypesMax) && !WrittenByCompiler(k) ==>
          Get(root, k) == Get(root0, k))
  }

  /** The charset and regional sections: the three charsets and the four regional fields as
      each section sets them from the original containers; `charset` and `regional` are gone,
      `fileSystem` is kept; no other key changes. */
  method TranslateCharsetAndRegional(root0: Fields) returns (root: Fields)
    ensures CharsetsMigrated(root, root0)
    ensures "charset" !in root && "regional" !in root
    ensures forall k :: !WrittenByCharset(k) && k !in RegionalFields ==> Get(root, k) == Get(root0, k)
    ensures Textless(root0) ==> Textless(root)
  {
    CharsetApartFromRegional();
    root := TranslateCharset(root0);
    root := TranslateRegional(root);
  }

  /** The sections that only move settings: charset, regional and application. Every key they
      set holds what its section sets from the original containers, `charset`, `regional` and
      `application` are gone, and only keys these sections write change. */
  method TranslateSettings(root0: Fields, cacheTypes: seq<string>) returns (root: Fields)
    ensures CharsetsMigrated(root, root0) && ApplicationMigrated(root, root0, cacheTypes)
    ensures "charset" !in root && "regional" !in root && "application" !in root
    ensures forall k :: !WrittenBySettings(k, cacheTypes) ==> Get(root, k) == Get(root0, k)
    ensures Textless(root0) ==> Textless(root)
  {
    ApartFromApplicationKeys("charset", cacheTypes);
    ApartFromApplicationKeys("regional", cacheTypes);
    var root1 := TranslateCharsetAndRegional(root0);
    root := TranslateApplication(root1, cacheTypes);
    CharsetsKeptByApplication(root1, root, root0, cacheTypes);
    ApplicationSourcesKept(root, root1, root0, cacheTypes);
  }

  /** The cache handlers and CFX sections: `cacheHandlers` and `cfx` hold the conversions those
      sections make, `extTags` is gone, and no other key changes. */
  method TranslateHandlersAndCfx(root0: Fields) returns (r: Result<Fields, TreeError>)
    ensures r.Success? <==>
              && AllNamed(ItemsAt(StructAt(root0, "cacheHandlers"), "cacheHandler"), "id")
              && AllNamed(ItemsAt(StructAt(root0, "extTags"), "extTag"), "name")
    ensures var handlers := StructAt(root0, "cacheHandlers");
            var items := ItemsAt(handlers, "cacheHandler");
            var handlersConverted := KeyedInReverse(items, "id", handlers["cacheHandler" := Arr(items)]);
            var cfxConverted := KeyedInOrder(ItemsAt(StructAt(root0, "extTags"), "extTag"), "name", StructAt(root0, "cfx"));
            r.Success? ==>
              && handlersConverted.Success? && cfxConverted.Success?
              && Get(r.value, "cacheHandlers") ==
                   Some(Struct(if HasEntryFor(items, "id", "cacheHandler") then handlersConverted.value
                               else handlersConverted.value["cacheHandler" := Arr(NonStructs(items))]))
              && Get(r.value, "cfx") == Some(Struct(cfxConverted.value))
              && "extTags" !in r.value
    ensures r.Success? ==>
              forall k :: k != "cacheHandlers" && k != "extTags" && k != "cfx" ==> Get(r.value, k) == Get(root0, k)
    ensures r.Success? && Textless(root0) ==> Textless(r.value)
  {
    var handlers := TranslateCacheHandlers(root0);
    if handlers.Failure? {
      return handlers;
    }
    assert "extTags" != "cacheHandlers" && "cfx" != "cacheHandlers";
    r := TranslateCfx(handlers.value);
  }

  /** The sections that turn lists into Structs: caches, cache handlers and CFX. They fail
      exactly when a list holds a Struct without its identifying field; otherwise `caches`,
      `cacheHandlers` and `cfx` hold the conversions those sections make, `cacheClasses` and the
      `default<Type>` fields are moved, `cache` and `extTags` are gone, and no other key changes. */
  method TranslateLists(root0: Fields, cacheTypesMax: seq<string>) returns (r: Result<Fields, TreeError>)
    ensures r.Success? <==>
              && AllNamed(ItemsAt(StructAt(root0, "cache"), "connection"), "name")
              && AllNamed(ItemsAt(StructAt(root0, "cacheHandlers"), "cacheHandler"), "id")
              && AllNamed(ItemsAt(StructAt(root0, "extTags"), "extTag"), "name")
    ensures r.Success? ==> ListsMigrated(r.value, root0, cacheTypesMax) && "cache" !in r.value && "extTags" !in r.value
    ensures r.Success? ==>
              forall k :: !WrittenByLists(k, cacheTypesMax) ==> Get(r.value, k) == Get(root0, k)
    ensures r.Success? && Textless(root0) ==> Textless(r.value)
  {
    ApartFromCachesKeys("cacheHandlers", cacheTypesMax);
    ApartFromCachesKeys("extTags", cacheTypesMax);
    ApartFromCachesKeys("cfx", cacheTypesMax);
    ApartFromHandlersAndCfxKeys("cache");
    ApartFromHandlersAndCfxKeys("caches");
    ApartFromHandlersAndCfxKeys("cacheClasses");
    var caches := TranslateCaches(root0, cacheTypesMax);
    if caches.Failure? {
      return caches;
    }
    r := TranslateHandlersAndCfx(caches.value);
    if r.Success? {
      assert Get(r.value, "cache") == Get(caches.value, "cache");
      forall t | t in cacheTypesMax
        ensures var key := PrefixedKey("default", t);
                Get(r.value, key) == Get(StructAt(root0, "cache"), key).Or(Get(root0, key))
      {
        DefaultKeyApart(t);
      }
    }
  }

  /** The list sections followed by the compiler section: they fail exactly when a list holds a
      Struct without its identifying field; otherwise `cache`, `extTags` and `compiler` are gone,
      only keys these sections write change, and, unless a cache type makes the caches section
      write the compiler flag `defaultFunctionOutput`, every key they set holds what its section
      sets from the original containers. */
  method TranslateListsAndCompiler(root0: Fields, cacheTypesMax: seq<string>) returns (r: Result<Fields, TreeError>)
    ensures r.Success? <==>
              && AllNamed(ItemsAt(StructAt(root0, "cache"), "connection"), "name")
              && AllNamed(ItemsAt(StructAt(root0, "cacheHandlers"), "cacheHandler"), "id")
              && AllNamed(ItemsAt(StructAt(root0, "extTags"), "extTag"), "name")
    ensures r.Success? && DefaultKeysApartFromCompiler(cacheTypesMax) ==>
              ListsMigrated(r.value, root0, cacheTypesMax) && CompilerMigrated(r.value, root0)
    ensures r.Success? ==> "cache" !in r.value && "extTags" !in r.value && "compiler" !in r.value
    ensures r.Success? ==>
              forall k :: !WrittenByLists(k, cacheTypesMax) && !WrittenByCompiler(k) ==> Get(r.value, k) == Get(root0, k)
    ensures r.Success? && Textless(root0) ==> Textless(r.value)
  {
    ApartFromCompilerKeys("cache");
    ApartFromCompilerKeys("extTags");
    var lists := TranslateLists(root0, cacheTypesMax);
    if lists.Failure? {
      return lists;
    }
    var root := TranslateCompiler(lists.value);
    assert Get(root, "cache") == Get(lists.value, "cache");
    assert Get(root, "extTags") == Get(lists.value, "extTags");
    if DefaultKeysApartFromCompiler(cacheTypesMax) {
      ListsKeptByCompiler(lists.value, root, root0, cacheTypesMax);
      CompilerSourcesKeptByLists(root, lists.value, root0, cacheTypesMax);
    }
    r := Success(root);
  }

  /** The section migrations in the source's order, before the prune: they fail exactly when
      one of the three lists holds a Struct without its identifying field; on success they leave
      what `SectionsMigrated` describes, and a root without text stays without text. */
  method TranslateSections(root0: Fields, cacheTypes: seq<string>, cacheTypesMax: seq<string>)
    returns (r: Result<Fields, TreeError>)
    ensures r.Success? <==>
              && AllNamed(ItemsAt(StructAt(root0, "cache"), "connection"), "name")
              && AllNamed(ItemsAt(StructAt(root0, "cacheHandlers"), "cacheHandler"), "id")
              && AllNamed(ItemsAt(StructAt(root0, "extTags"), "extTag"), "name")
    ensures r.Success? ==> SectionsMigrated(r.value, root0, cacheTypes, cacheTypesMax)
    ensures r.Success? && Textless(root0) ==> Textless(r.value)
  {
    var root1 := TranslateSettings(root0, cacheTypes);
    ListsKeysNotSettings(cacheTypes);
    assert Get(root1, "cache") == Get(root0, "cache");
    assert Get(root1, "cacheHandlers") == Get(root0, "cacheHandlers");
    assert Get(root1, "extTags") == Get(root0, "extTags");
    r := TranslateListsAndCompiler(root1, cacheTypesMax);
    if r.Failure? {
      return;
    }
    ApartFromLaterKeys("charset", cacheTypesMax);
    ApartFromLaterKeys("regional", cacheTypesMax);
    ApartFromLaterKeys("application", cacheTypesMax);
    CharsetsKeptByLater(root1, r.value, root0, cacheTypesMax);
    ApplicationKeptByLater(root1, r.value, root0, cacheTypes, cacheTypesMax);
    if DefaultKeysApartFromCompiler(cacheTypesMax) {
      ListsSourcesKept(r.value, root1, root0, cacheTypes, cacheTypesMax);
      CompilerSourcesKeptBySettings(r.value, root1, root0, cacheTypes);
    }
  }

  /** `translateConfigFile`: the legacy configuration is the Struct `cfLuceeConfiguration` of the
      XML data; the sections are applied in order and the result is pruned. The migration fails
      exactly when one of the three lists holds a Struct without its identifying field. On
      success the result is the pruned form of a root `migrated` of which `SectionsMigrated`
      holds; no Struct or Array below the root is empty; the legacy containers are gone; the
      charsets, the regional fields, `requestTimeout` and `adminSync` hold, pruned, what their
      sections set from the original containers; every key no section writes holds its
      original value, pruned; and a document without any text, an empty one in particular,
      migrates to an empty root. */
  method TranslateConfigFile(data: Fields, cacheTypes: seq<string>, cacheTypesMax: seq<string>)
    returns (r: Result<Fields, TreeError>, ghost migrated: Fields)
    ensures var root0 := StructAt(data, "cfLuceeConfiguration");
            r.Success? <==>
              && AllNamed(ItemsAt(StructAt(root0, "cache"), "connection"), "name")
              && AllNamed(ItemsAt(StructAt(root0, "cacheHandlers"), "cacheHandler"), "id")
              && AllNamed(ItemsAt(StructAt(root0, "extTags"), "extTag"), "name")
    ensures r.Success? ==>
              && SectionsMigrated(migrated, StructAt(data, "cfLuceeConfiguration"), cacheTypes, cacheTypesMax)
              && r.value == Pruned(Struct(migrated)).fields
    ensures r.Success? ==> NoEmptyBelow(Struct(r.value))
    ensures r.Success? ==>
              && "charset" !in r.value && "regional" !in r.value && "application" !in r.value
              && "cache" !in r.value && "extTags" !in r.value && "compiler" !in r.value
    ensures var root0 := StructAt(data, "cfLuceeConfiguration");
            var charset, regional, fileSystem :=
              StructAt(root0, "charset"), StructAt(root0, "regional"), StructAt(root0, "fileSystem");
            var application := StructAt(root0, "application");
            r.Success? ==>
              && Get(r.value, "templateCharset") ==
                   PrunedEntry(Get(charset, "templateCharset").Or(Get(fileSystem, "encoding"))
                                 .Or(Get(fileSystem, "charset")).Or(Get(root0, "templateCharset")))
              && Get(r.value, "webCharset") ==
                   PrunedEntry(Get(charset, "webCharset").Or(Get(regional, "defaultEncoding"))
                                 .Or(Get(fileSystem, "encoding")).Or(Get(charset, "charset")).Or(Get(root0, "webCharset")))
              && Get(r.value, "resourceCharset") ==
                   PrunedEntry(Get(charset, "resourceCharset").Or(Get(fileSystem, "encoding"))
                                 .Or(Get(fileSystem, "charset")).Or(Get(root0, "resourceCharset")))
              && (forall k :: k in RegionalFields ==> Get(r.value, k) == PrunedEntry(Get(regional, k).Or(Get(root0, k))))
              && Get(r.value, "requestTimeout") ==
                   PrunedEntry(Get(application, "requesttimeout").Or(Get(StructAt(root0, "scope"), "requesttimeout"))
                                 .Or(Get(root0, "requestTimeout")))
              && Get(r.value, "adminSync") ==
                   PrunedEntry(Get(application, "adminSync").Or(Get(application, "adminSynchronisation"))
                                 .Or(Get(root0, "adminSync")))
    ensures var root0 := StructAt(data, "cfLuceeConfiguration");
            r.Success? ==>
              forall k :: !WrittenBySettings(k, cacheTypes) && !WrittenByLists(k, cacheTypesMax) && !WrittenByCompiler(k) ==>
                Get(r.value, k) == PrunedEntry(Get(root0, k))
    ensures var root0 := StructAt(data, "cfLuceeConfiguration");
            r.Success? && Textless(root0) ==> r.value == map[]
    ensures StructAt(data, "cfLuceeConfiguration") == map[] ==> r == Success(map[])
  {
    var root0 := StructAt(data, "cfLuceeConfiguration");  // getAsStruct; `data` itself is not kept
    var sections := TranslateSections(root0, cacheTypes, cacheTypesMax);
    if sections.Failure? {
      return Failure(sections.error), map[];
    }
    var root := sections.value;
    migrated := root;
    var pruned := RemIfEmpty(Struct(root));
    PrunedHasNoEmpty(Struct(root));
    forall k
      ensures Get(pruned.fields, k) == PrunedEntry(Get(root, k))
    {
      PrunedFields(root, k);
    }
    r := Success(pruned.fields);
    SettingsPruned(root, pruned.fields, root0, cacheTypes);
    if Textless(root0) {
      PrunedEmptyIff(Struct(root));
    }
  }

  /** The charsets, the regional fields, `requestTimeout` and `adminSync` the settings sections
      set stand in the pruned root as their pruned values. */
  lemma SettingsPruned(root: Fields, pruned: Fields, root0: Fields, cacheTypes: seq<string>)
    requires CharsetsMigrated(root, root0) && ApplicationMigrated(root, root0, cacheTypes)
    requires forall k :: Get(pruned, k) == PrunedEntry(Get(root, k))
    ensures var charset, regional, fileSystem :=
              StructAt(root0, "charset"), StructAt(root0, "regional"), StructAt(root0, "fileSystem");
            var application := StructAt(root0, "application");
            && Get(pruned, "templateCharset") ==
                 PrunedEntry(Get(charset, "templateCharset").Or(Get(fileSystem, "encoding"))
                               .Or(Get(fileSystem, "charset")).Or(Get(root0, "templateCharset")))
            && Get(pruned, "webCharset") ==
                 PrunedEntry(Get(charset, "webCharset").Or(Get(regional, "defaultEncoding"))
                               .Or(Get(fileSystem, "encoding")).Or(Get(charset, "charset")).Or(Get(root0, "webCharset")))
            && Get(pruned, "resourceCharset") ==
                 PrunedEntry(Get(charset, "resourceCharset").Or(Get(fileSystem, "encoding"))
                               .Or(Get(fileSystem, "charset")).Or(Get(root0, "resourceCharset")))
            && (forall k :: k in RegionalFields ==> Get(pruned, k) == PrunedEntry(Get(regional, k).Or(Get(root0, k))))
            && Get(pruned, "requestTimeout") ==
                 PrunedEntry(Get(application, "requesttimeout").Or(Get(StructAt(root0, "scope"), "requesttimeout"))
                               .Or(Get(root0, "requestTimeout")))
            && Get(pruned, "adminSync") ==
                 PrunedEntry(Get(application, "adminSync").Or(Get(application, "adminSynchronisation"))
                               .Or(Get(root0, "adminSync")))
  {
  }


  /** A legacy root whose only setting is `fileSystem.charset` migrates with that charset as
      `templateCharset` and `resourceCharset`, and with no `webCharset` (`SectionsMigrated`
      includes `CharsetsMigrated`). */
  lemma FileSystemCharsetMigrated(migrated: Fields, cs: string)
    requires CharsetsMigrated(migrated, map["fileSystem" := Struct(map["charset" := Scalar(cs)])])
    ensures Get(Pruned(Struct(migrated)).fields, "templateCharset") == Some(Scalar(cs))
    ensures Get(Pruned(Struct(migrated)).fields, "resourceCharset") == Some(Scalar(cs))
    ensures Get(Pruned(Struct(migrated)).fields, "webCharset") == None
  {
    PrunedFields(migrated, "templateCharset");
    PrunedFields(migrated, "resourceCharset");
    PrunedFields(migrated, "webCharset");
  }

  /** The keys the charset and regional sections set are none of the keys the application
      section writes. */
  lemma CharsetKeysNotApplication(types: seq<string>)
    ensures !WrittenByApplication("templateCharset", types) && !WrittenByApplication("webCharset", types)
    ensures !WrittenByApplication("resourceCharset", types) && !WrittenByApplication("fileSystem", types)
    ensures forall k :: k in RegionalFields ==> !WrittenByApplication(k, types)
  {
    ApartFromApplicationKeys("templateCharset", types);
    ApartFromApplicationKeys("webCharset", types);
    ApartFromApplicationKeys("resourceCharset", types);
    ApartFromApplicationKeys("fileSystem", types);
    RegionalApartFromApplication(types);
  }

  /** The fields the application section moves before the `cachedWithin` loop are none of the
      keys the charset and regional sections write, */
  lemma EarlyFieldsNotCharset()
    ensures forall k :: k in EarlyApplicationFields ==> !WrittenByCharset(k) && k !in RegionalFields
  {
  }

  /** ... nor are the fields it moves after the request timeouts, */
  lemma LateFieldsNotCharset()
    ensures forall k :: k in LateApplicationFields ==> !WrittenByCharset(k) && k !in RegionalFields
  {
  }

  /** ... nor the `cachedWithin<Type>` keys and `requestTimeoutInURL`. */
  lemma CachedWithinKeysNotCharset(types: seq<string>)
    ensures forall t :: t in types ==>
              !WrittenByCharset(PrefixedKey("cachedWithin", t)) && PrefixedKey("cachedWithin", t) !in RegionalFields
    ensures !WrittenByCharset("requestTimeoutInURL") && "requestTimeoutInURL" !in RegionalFields
  {
    forall t | t in types
      ensures !WrittenByCharset(PrefixedKey("cachedWithin", t)) && PrefixedKey("cachedWithin", t) !in RegionalFields
    {
      assert PrefixedKey("cachedWithin", t)[6] == 'W';
    }
  }

  /** The keys the charset and regional sections set are none of the keys the list and compiler
      sections write. */
  lemma CharsetKeysNotLater(typesMax: seq<string>)
    ensures !WrittenByLists("templateCharset", typesMax) && !WrittenByCompiler("templateCharset")
    ensures !WrittenByLists("webCharset", typesMax) && !WrittenByCompiler("webCharset")
    ensures !WrittenByLists("resourceCharset", typesMax) && !WrittenByCompiler("resourceCharset")
    ensures !WrittenByLists("fileSystem", typesMax) && !WrittenByCompiler("fileSystem")
    ensures forall k :: k in RegionalFields ==> !WrittenByLists(k, typesMax) && !WrittenByCompiler(k)
  {
    ApartFromLaterKeys("templateCharset", typesMax);
    ApartFromLaterKeys("webCharset", typesMax);
    ApartFromLaterKeys("resourceCharset", typesMax);
    ApartFromLaterKeys("fileSystem", typesMax);
    RegionalApartFromLater(typesMax);
  }

  /** The fields the application section moves before the `cachedWithin` loop are none of the
      keys the list and compiler sections write, */
  lemma EarlyFieldsNotLater(typesMax: seq<string>)
    ensures forall k :: k in EarlyApplicationFields ==> !WrittenByLists(k, typesMax) && !WrittenByCompiler(k)
  {
    forall k | k in EarlyApplicationFields
      ensures k !in PrefixedKeys("default", typesMax)
    {
      NotPrefixed("default", typesMax, k, 0);
    }
  }

  /** ... nor are the fields it moves after the request timeouts, */
  lemma LateFieldsNotLater(typesMax: seq<string>)
    ensures forall k :: k in LateApplicationFields ==> !WrittenByLists(k, typesMax) && !WrittenByCompiler(k)
  {
    forall k | k in LateApplicationFields
      ensures k !in PrefixedKeys("default", typesMax)
    {
      NotPrefixed("default", typesMax, k, 0);
    }
  }

  /** ... nor the `cachedWithin<Type>` keys. */
  lemma CachedWithinKeysNotLater(types: seq<string>, typesMax: seq<string>)
    ensures forall t :: t in types ==>
              !WrittenByLists(PrefixedKey("cachedWithin", t), typesMax) && !WrittenByCompiler(PrefixedKey("cachedWithin", t))
  {
    forall t | t in types
      ensures !WrittenByLists(PrefixedKey("cachedWithin", t), typesMax) && !WrittenByCompiler(PrefixedKey("cachedWithin", t))
    {
      var key := PrefixedKey("cachedWithin", t);
      assert key[0] == 'c' && key[6] == 'W';
      NotPrefixed("default", typesMax, key, 0);
    }
  }

  /** The containers the list sections read or set are none of the keys the settings sections
      write, */
  lemma ListsKeysNotSettings(types: seq<string>)
    ensures !WrittenBySettings("cache", types) && !WrittenBySettings("caches", types)
    ensures !WrittenBySettings("cacheClasses", types) && !WrittenBySettings("cacheHandlers", types)
    ensures !WrittenBySettings("extTags", types) && !WrittenBySettings("cfx", types)
  {
    ApartFromSettingsKeys("cache", types);
    ApartFromSettingsKeys("caches", types);
    ApartFromSettingsKeys("cacheClasses", types);
    ApartFromSettingsKeys("cacheHandlers", types);
    ApartFromSettingsKeys("extTags", types);
    ApartFromSettingsKeys("cfx", types);
  }

  /** ... nor are the `default<Type>` keys. */
  lemma DefaultKeysNotSettings(types: seq<string>, typesMax: seq<string>)
    ensures forall t :: t in typesMax ==> !WrittenBySettings(PrefixedKey("default", t), types)
  {
    forall t | t in typesMax
      ensures !WrittenBySettings(PrefixedKey("default", t), types)
    {
      var key := PrefixedKey("default", t);
      assert key[0] == 'd';
      NotPrefixed("cachedWithin", types, key, 0);
    }
  }

  /** The compiler container and the keys the compiler section sets from it under a new name
      are none of the keys the settings sections write, */
  lemma CompilerNamesNotSettings(types: seq<string>)
    ensures !WrittenBySettings("compiler", types) && !WrittenBySettings("suppressWhitespaceBeforeArgument", types)
    ensures !WrittenBySettings("dotNotationUpperCase", types) && !WrittenBySettings("nullSupport", types)
  {
    CompilerNameApartFromSettings("compiler", types);
    CompilerSwitchApartFromSettings("suppressWhitespaceBeforeArgument", types);
    CompilerSwitchApartFromSettings("dotNotationUpperCase", types);
    CompilerNameApartFromSettings("nullSupport", types);
  }

  /** ... nor are the flags it moves unchanged. */
  lemma CompilerFlagsNotSettings(types: seq<string>)
    ensures forall k :: k in CompilerFlags ==> !WrittenBySettings(k, types)
  {
    forall k | k in CompilerFlags
      ensures !WrittenBySettings(k, types)
    {
      CompilerFlagApartFromSettings(k, types);
    }
  }

  /** Unless a cache type generates `defaultFunctionOutput`, the keys the compiler section reads
      or sets are none of the keys the list sections write, ... */
  lemma CompilerKeysNotLists(typesMax: seq<string>)
    requires DefaultKeysApartFromCompiler(typesMax)
    ensures !WrittenByLists("compiler", typesMax) && !WrittenByLists("suppressWhitespaceBeforeArgument", typesMax)
    ensures !WrittenByLists("dotNotationUpperCase", typesMax) && !WrittenByLists("nullSupport", typesMax)
    ensures forall k :: k in CompilerFlags ==> !WrittenByLists(k, typesMax)
  {
    NotPrefixed("default", typesMax, "compiler", 0);
    NotPrefixed("default", typesMax, "suppressWhitespaceBeforeArgument", 0);
    NotPrefixed("default", typesMax, "dotNotationUpperCase", 1);
    NotPrefixed("default", typesMax, "nullSupport", 0);
    forall k | k in CompilerFlags && k != "defaultFunctionOutput"
      ensures k !in PrefixedKeys("default", typesMax)
    {
      NotPrefixed("default", typesMax, k, 0);
    }
  }

  /** ... and the keys the list sections set are none of the keys the compiler section writes. */
  lemma ListsKeysNotCompiler()
    ensures !WrittenByCompiler("cacheClasses") && !WrittenByCompiler("caches")
    ensures !WrittenByCompiler("cacheHandlers") && !WrittenByCompiler("cfx")
  {
  }

  /** Unless a cache type generates `defaultFunctionOutput`, no `default<Type>` key is one the
      compiler section writes. */
  lemma DefaultKeysNotCompiler(typesMax: seq<string>)
    requires DefaultKeysApartFromCompiler(typesMax)
    ensures forall t :: t in typesMax ==> !WrittenByCompiler(PrefixedKey("default", t))
  {
    forall t | t in typesMax
      ensures !WrittenByCompiler(PrefixedKey("default", t))
    {
      var key := PrefixedKey("default", t);
      PrefixedKeysMeaning("default", typesMax, key);
      DefaultKeyNotCompiler(key);
    }
  }

  /** A key starting with `de` is none of the keys the compiler section writes, except
      `defaultFunctionOutput`. */
  lemma DefaultKeyNotCompiler(key: string)
    requires |key| >= 2 && key[0] == 'd' && key[1] == 'e' && key != "defaultFunctionOutput"
    ensures !WrittenByCompiler(key)
  {
  }

  /** What the charset and regional sections left, the application section keeps. */
  lemma CharsetsKeptByApplication(before: Fields, after: Fields, root0: Fields, types: seq<string>)
    requires CharsetsMigrated(before, root0)
    requires forall k :: !WrittenByApplication(k, types) ==> Get(after, k) == Get(before, k)
    ensures CharsetsMigrated(after, root0)
  {
    CharsetKeysNotApplication(types);
  }

  /** The application section reads nothing the charset and regional sections write: what it
      sets from the root they leave is what it would set from the original root. */
  lemma ApplicationSourcesKept(root: Fields, mid: Fields, root0: Fields, types: seq<string>)
    requires ApplicationMigrated(root, mid, types)
    requires forall k :: !WrittenByCharset(k) && k !in RegionalFields ==> Get(mid, k) == Get(root0, k)
    ensures ApplicationMigrated(root, root0, types)
  {
    ApplicationSourcesApart();
    EarlyFieldsNotCharset();
    LateFieldsNotCharset();
    CachedWithinKeysNotCharset(types);
  }

  /** What the charset and regional sections left, the list and compiler sections keep. */
  lemma CharsetsKeptByLater(before: Fields, after: Fields, root0: Fields, typesMax: seq<string>)
    requires CharsetsMigrated(before, root0)
    requires forall k :: !WrittenByLists(k, typesMax) && !WrittenByCompiler(k) ==> Get(after, k) == Get(before, k)
    ensures CharsetsMigrated(after, root0)
  {
    CharsetKeysNotLater(typesMax);
  }

  /** What the application section left, the list and compiler sections keep. */
  lemma ApplicationKeptByLater(before: Fields, after: Fields, root0: Fields, types: seq<string>, typesMax: seq<string>)
    requires ApplicationMigrated(before, root0, types)
    requires forall k :: !WrittenByLists(k, typesMax) && !WrittenByCompiler(k) ==> Get(after, k) == Get(before, k)
    ensures ApplicationMigrated(after, root0, types)
  {
    EarlyFieldsNotLater(typesMax);
    LateFieldsNotLater(typesMax);
    CachedWithinKeysNotLater(types, typesMax);
    ApartFromLaterKeys("requestTimeoutInURL", typesMax);
    ApartFromLaterKeys("requestTimeout", typesMax);
    ApartFromLaterKeys("adminSync", typesMax);
    ApartFromLaterKeys("scope", typesMax);
  }

  /** The list sections read nothing the settings sections write. */
  lemma ListsSourcesKept(root: Fields, mid: Fields, root0: Fields, types: seq<string>, typesMax: seq<string>)
    requires ListsMigrated(root, mid, typesMax)
    requires forall k :: !WrittenBySettings(k, types) ==> Get(mid, k) == Get(root0, k)
    ensures ListsMigrated(root, root0, typesMax)
  {
    ListsKeysNotSettings(types);
    DefaultKeysNotSettings(types, typesMax);
  }

  /** The compiler section reads nothing the settings sections write. */
  lemma CompilerSourcesKeptBySettings(root: Fields, mid: Fields, root0: Fields, types: seq<string>)
    requires CompilerMigrated(root, mid)
    requires forall k :: !WrittenBySettings(k, types) ==> Get(mid, k) == Get(root0, k)
    ensures CompilerMigrated(root, root0)
  {
    CompilerNamesNotSettings(types);
    CompilerFlagsNotSettings(types);
  }

  /** What the list sections left, the compiler section keeps. */
  lemma ListsKeptByCompiler(before: Fields, after: Fields, root0: Fields, typesMax: seq<string>)
    requires ListsMigrated(before, root0, typesMax) && DefaultKeysApartFromCompiler(typesMax)
    requires forall k :: !WrittenByCompiler(k) ==> Get(after, k) == Get(before, k)
    ensures ListsMigrated(after, root0, typesMax)
  {
    ListsKeysNotCompiler();
    DefaultKeysNotCompiler(typesMax);
  }

  /** The compiler section reads nothing the list sections write. */
  lemma CompilerSourcesKeptByLists(root: Fields, mid: Fields, root0: Fields, typesMax: seq<string>)
    requires CompilerMigrated(root, mid) && DefaultKeysApartFromCompiler(typesMax)
    requires forall k :: !WrittenByLists(k, typesMax) ==> Get(mid, k) == Get(root0, k)
    ensures CompilerMigrated(root, root0)
  {
    CompilerKeysNotLists(typesMax);
  }

  /** A key the charset section writes is not a regional field, and the other way round,
      except for `regional` itself. */
  lemma CharsetApartFromRegional()
    ensures forall k :: k in RegionalFields ==> !WrittenByCharset(k)
    ensures "templateCharset" !in RegionalFields && "webCharset" !in RegionalFields
    ensures "resourceCharset" !in RegionalFields && "charset" !in RegionalFields && "fileSystem" !in RegionalFields
  {
  }

  /** No regional field is a key the application section writes, */
  lemma RegionalApartFromApplication(types: seq<string>)
    ensures forall k :: k in RegionalFields ==> !WrittenByApplication(k, types)
  {
    forall k | k in RegionalFields
      ensures k !in PrefixedKeys("cachedWithin", types)
    {
      NotPrefixed("cachedWithin", types, k, 0);
    }
  }

  /** ... nor one the list and compiler sections write. */
  lemma RegionalApartFromLater(types: seq<string>)
    ensures forall k :: k in RegionalFields ==> !WrittenByLists(k, types) && !WrittenByCompiler(k)
  {
    forall k | k in RegionalFields
      ensures k !in PrefixedKeys("default", types)
    {
      NotPrefixed("default", types, k, 0);
    }
  }

  /** The containers and keys the application section reads are none of the keys the charset
      and regional sections write. */
  lemma ApplicationSourcesApart()
    ensures !WrittenByCharset("application") && "application" !in RegionalFields
    ensures !WrittenByCharset("scope") && "scope" !in RegionalFields
    ensures !WrittenByCharset("requestTimeout") && "requestTimeout" !in RegionalFields
    ensures !WrittenByCharset("adminSync") && "adminSync" !in RegionalFields
  {
  }

  /** A key the settings sections set or remove is none of the keys the application section
      writes. */
  lemma ApartFromApplicationKeys(k: string, types: seq<string>)
    requires || k == "templateCharset" || k == "webCharset" || k == "resourceCharset" || k == "charset"
             || k == "regional" || k == "fileSystem"
    ensures !WrittenByApplication(k, types)
  {
    NotPrefixed("cachedWithin", types, k, 5);
  }

  /** A container the list sections read is none of the keys the settings sections write, */
  lemma ApartFromSettingsKeys(k: string, types: seq<string>)
    requires || k == "cache" || k == "caches" || k == "cacheClasses" || k == "cacheHandlers" || k == "extTags"
             || k == "cfx"
    ensures !WrittenBySettings(k, types)
  {
    NotPrefixed("cachedWithin", types, k, 5);
  }

  /** ... nor is the compiler container or `nullSupport`, */
  lemma CompilerNameApartFromSettings(k: string, types: seq<string>)
    requires k == "compiler" || k == "nullSupport"
    ensures !WrittenBySettings(k, types)
  {
    assert k[0] == 'c' || k[0] == 'n';
    NotPrefixed("cachedWithin", types, k, 1);
  }

  /** ... nor a compiler switch, */
  lemma CompilerSwitchApartFromSettings(k: string, types: seq<string>)
    requires k == "suppressWhitespaceBeforeArgument" || k == "dotNotationUpperCase"
    ensures !WrittenBySettings(k, types)
  {
    NotPrefixed("cachedWithin", types, k, 1);
  }

  /** ... nor a compiler flag. */
  lemma CompilerFlagApartFromSettings(k: string, types: seq<string>)
    requires k in CompilerFlags
    ensures !WrittenBySettings(k, types)
  {
    NotPrefixed("cachedWithin", types, k, 0);
  }

  /** A key the settings sections set or remove is none of the keys the list and compiler
      sections write. */
  lemma ApartFromLaterKeys(k: string, types: seq<string>)
    requires || k == "templateCharset" || k == "webCharset" || k == "resourceCharset" || k == "requestTimeout"
             || k == "requestTimeoutInURL" || k == "adminSync" || k == "scope" || k == "charset" || k == "regional"
             || k == "application" || k == "fileSystem"
    ensures !WrittenByLists(k, types) && !WrittenByCompiler(k)
  {
    NotPrefixed("default", types, k, 0);
  }

  /** A container the list sections keep or a later section reads is none of the keys the
      caches section writes, */
  lemma ApartFromCachesKeys(k: string, types: seq<string>)
    requires k == "cacheHandlers" || k == "extTags" || k == "cfx"
    ensures k !in PrefixedKeys("default", types) && k != "cacheClasses" && k != "cache" && k != "caches"
  {
    NotPrefixed("default", types, k, 0);
  }

  /** ... and a key the caches section writes is none of the keys the cache handlers and CFX
      sections write. */
  lemma ApartFromHandlersAndCfxKeys(k: string)
    requires k == "cache" || k == "caches" || k == "cacheClasses"
    ensures k != "cacheHandlers" && k != "extTags" && k != "cfx"
  {
  }

  /** A container the list sections remove is none of the keys the compiler section writes. */
  lemma ApartFromCompilerKeys(k: string)
    requires k == "cache" || k == "extTags"
    ensures !WrittenByCompiler(k)
  {
  }
}
