/**
 * The TAXII client of taxii_client.py: discovery of the collections a server offers, and the
 * retrieval and flattening of the indicators of one collection chosen by title.
 *
 * The network is a parameter. A `Network` says, for a server URL and the credentials, what
 * `Server(url, user=..., password=...).api_roots` yields; each API root says what its
 * `collections` property yields; each collection says what the indicator query over it
 * (`TAXIICollectionSource(...).query([filt])`) yields. Every one of these may raise, which is a
 * `Failure`.
 */
module TaxiiClient {
  import opened Wrappers

  /** A STIX object returned by the query; an attribute the object does not have is `None`. */
  datatype StixObject = StixObject(
    stixType: string,
    value: Option<string>,
    pattern: Option<string>,
    description: Option<string>,
    lastSeen: Option<string>)

  /**
   * A flat indicator record, a dictionary in the source. A key the record lacks is `None`:
   * the records built here always have all of them, the stored ones need not.
   */
  datatype Indicator = Indicator(
    stixType: Option<string>,
    value: Option<string>,
    description: Option<string>,
    lastSeen: Option<string>,
    source: Option<string>)

  /** A collection as the server lists it, with what the indicator query over it yields. */
  datatype CollectionInfo = CollectionInfo(
    id: string,
    title: string,
    description: Option<string>,
    url: string,
    query: Result<seq<StixObject>>)

  /** An API root, with what reading its `collections` yields. */
  datatype ApiRoot = ApiRoot(url: string, collections: Result<seq<CollectionInfo>>)

  /** What the server at a URL reports as its API roots, for the given user name and password. */
  type Network = (string, Option<string>, Option<string>) -> Result<seq<ApiRoot>>

  /** One entry of the collection discovery result. */
  datatype CollectionRecord = CollectionRecord(title: string, description: string, id: string)

  /** Python truthiness of an optional string: neither `None` nor `''`. */
  predicate Truthy(s: Option<string>) {
    s.Some? && s.value != ""
  }

  // ---------------------------------------------------------------------------------------------
  // discover_collections

  /** The record discovery makes of one collection. */
  function Describe(c: CollectionInfo): (r: CollectionRecord)
    ensures r.title == c.title && r.id == c.id
    ensures !Truthy(c.description) ==> r.description == "No description"
    ensures Truthy(c.description) ==> r.description == c.description.value
  {
    CollectionRecord(c.title, if Truthy(c.description) then c.description.value else "No description", c.id)
  }

  /** The records of the collections of one API root, in order. */
  function DescribeAll(cols: seq<CollectionInfo>): (r: seq<CollectionRecord>)
    ensures |r| == |cols|
    ensures forall j :: 0 <= j < |cols| ==> r[j] == Describe(cols[j])
  {
    seq(|cols|, j requires 0 <= j < |cols| => Describe(cols[j]))
  }

  /** The records of all collections of all API roots, root by root; the first root whose collections cannot be read fails the whole. */
  function Flattened(roots: seq<ApiRoot>): Result<seq<CollectionRecord>>
    decreases |roots|
  {
    if |roots| == 0 then Success([])
    else
      match Flattened(roots[..|roots| - 1])
      case Failure(e) => Failure(e)
      case Success(prefix) =>
        match roots[|roots| - 1].collections
        case Failure(e) => Failure(e)
        case Success(cols) => Success(prefix + DescribeAll(cols))
  }

  /** What `discover_collections` returns for a client with these fields. */
  function Discovery(serverUrl: Option<string>, username: Option<string>, password: Option<string>, network: Network): seq<CollectionRecord> {
    if !Truthy(serverUrl) then []
    else
      match network(serverUrl.value, username, password)
      case Failure(_) => []
      case Success(roots) =>
        match Flattened(roots)
        case Failure(_) => []
        case Success(collections) => collections
  }

  /** The number of collections over all API roots whose collections can be read. */
  function CollectionCount(roots: seq<ApiRoot>): nat
    decreases |roots|
  {
    if |roots| == 0 then 0
    else
      CollectionCount(roots[..|roots| - 1])
      + match roots[|roots| - 1].collections
        case Failure(_) => 0
        case Success(cols) => |cols|
  }

  /** Some API root cannot list its collections. */
  ghost predicate SomeListingFails(roots: seq<ApiRoot>) {
    exists i :: 0 <= i < |roots| && roots[i].collections.Failure?
  }

  /** `rec` describes a collection of one of the API roots. */
  ghost predicate DescribesSome(roots: seq<ApiRoot>, rec: CollectionRecord) {
    exists i, j :: 0 <= i < |roots| && roots[i].collections.Success?
      && 0 <= j < |roots[i].collections.value| && rec == Describe(roots[i].collections.value[j])
  }

  /** Discovery fails exactly when one of the API roots cannot list its collections. */
  lemma {:induction false} FlattenedFailsIff(roots: seq<ApiRoot>)
    ensures Flattened(roots).Failure? <==> SomeListingFails(roots)
    decreases |roots|
  {
    if |roots| > 0 {
      var init := roots[..|roots| - 1];
      FlattenedFailsIff(init);
      if SomeListingFails(init) {
        var i :| 0 <= i < |init| && init[i].collections.Failure?;
        assert roots[i] == init[i];
      }
      if SomeListingFails(roots) {
        var i :| 0 <= i < |roots| && roots[i].collections.Failure?;
        if i < |init| {
          assert init[i] == roots[i];
        }
      }
    }
  }

  /** A successful discovery lists one record per collection, so its length is the sum of the collection counts. */
  lemma {:induction false} FlattenedLength(roots: seq<ApiRoot>)
    requires Flattened(roots).Success?
    ensures |Flattened(roots).value| == CollectionCount(roots)
    decreases |roots|
  {
    if |roots| > 0 {
      FlattenedLength(roots[..|roots| - 1]);
    }
  }

  /** Discovery over two runs of API roots lists the records of the first run, then those of the second. */
  lemma {:induction false} FlattenedAppend(a: seq<ApiRoot>, b: seq<ApiRoot>)
    requires Flattened(a).Success? && Flattened(b).Success?
    ensures Flattened(a + b) == Success(Flattened(a).value + Flattened(b).value)
    decreases |b|
  {
    if |b| == 0 {
      assert a + b == a;
      assert Flattened(b).value == [];
      assert Flattened(a).value + [] == Flattened(a).value;
    } else {
      var binit := b[..|b| - 1];
      assert (a + b)[..|a + b| - 1] == a + binit;
      assert (a + b)[|a + b| - 1] == b[|b| - 1];
      FlattenedAppend(a, binit);
      var fa, fi, last := Flattened(a).value, Flattened(binit).value, DescribeAll(b[|b| - 1].collections.value);
      assert Flattened(b).value == fi + last;
      assert Flattened(a + b) == Success(fa + fi + last);
      assert fa + fi + last == fa + (fi + last);
    }
  }

  /** Every record discovery lists describes a collection of one of the API roots. */
  lemma {:induction false} FlattenedOrigin(roots: seq<ApiRoot>)
    requires Flattened(roots).Success?
    ensures forall k :: 0 <= k < |Flattened(roots).value| ==> DescribesSome(roots, Flattened(roots).value[k])
    decreases |roots|
  {
    if |roots| > 0 {
      var init := roots[..|roots| - 1];
      var last := roots[|roots| - 1];
      FlattenedOrigin(init);
      var prefix := Flattened(init).value;
      var cols := last.collections.value;
      forall k | 0 <= k < |Flattened(roots).value| ensures DescribesSome(roots, Flattened(roots).value[k]) {
        var rec := Flattened(roots).value[k];
        if k < |prefix| {
          assert rec == prefix[k];
          assert DescribesSome(init, rec);
          var i, j :| 0 <= i < |init| && init[i].collections.Success?
            && 0 <= j < |init[i].collections.value| && rec == Describe(init[i].collections.value[j]);
          assert roots[i] == init[i];
        } else {
          assert rec == DescribeAll(cols)[k - |prefix|];
          assert rec == Describe(last.collections.value[k - |prefix|]);
        }
      }
    }
  }

  /** Once a prefix of the API roots fails, the whole discovery fails. */
  lemma FlattenedPrefixFails(roots: seq<ApiRoot>, i: nat)
    requires i < |roots| && roots[i].collections.Failure?
    ensures Flattened(roots).Failure?
  {
    FlattenedFailsIff(roots);
  }

  /** Discovery is all-or-nothing: either nothing, or one record per collection of every API root. */
  lemma DiscoveryAllOrNothing(serverUrl: Option<string>, username: Option<string>, password: Option<string>, network: Network)
    ensures var r := Discovery(serverUrl, username, password, network);
      r == [] || (Truthy(serverUrl) && network(serverUrl.value, username, password).Success?
                  && !SomeListingFails(network(serverUrl.value, username, password).value)
                  && |r| == CollectionCount(network(serverUrl.value, username, password).value))
  {
    if Truthy(serverUrl) && network(serverUrl.value, username, password).Success? {
      var roots := network(serverUrl.value, username, password).value;
      FlattenedFailsIff(roots);
      if Flattened(roots).Success? {
        FlattenedLength(roots);
      }
    }
  }

  /** Without a server URL, or when the server cannot be reached, discovery lists nothing. */
  lemma DiscoveryGuard(serverUrl: Option<string>, username: Option<string>, password: Option<string>, network: Network)
    requires !Truthy(serverUrl) || network(serverUrl.value, username, password).Failure?
    ensures Discovery(serverUrl, username, password, network) == []
  {
  }

  // ---------------------------------------------------------------------------------------------
  // get_indicators

  /** The index of the first collection whose title is exactly `name`, if any. */
  function FirstTitle(cols: seq<CollectionInfo>, name: string): (k: Option<nat>)
    ensures k.Some? ==> k.value < |cols| && cols[k.value].title == name
                        && forall j :: 0 <= j < k.value ==> cols[j].title != name
    ensures k.None? ==> forall j :: 0 <= j < |cols| ==> cols[j].title != name
    decreases |cols|
  {
    if |cols| == 0 then None
    else if cols[0].title == name then Some(0)
    else
      match FirstTitle(cols[1..], name)
      case None => None
      case Some(k) => Some(k + 1)
  }

  /**
   * The flat record of one STIX object, labelled with the collection name. Reading `pattern` on an
   * object that has neither `value` nor `pattern` raises.
   */
  function Normalize(o: StixObject, source: string): (r: Result<Indicator>)
    ensures r.Success? <==> o.value.Some? || o.pattern.Some?
    ensures r.Success? && o.value.Some? ==> r.value.value == o.value
    ensures r.Success? && o.value.None? ==> r.value.value == o.pattern
    ensures r.Success? ==> r.value.stixType == Some(o.stixType) && r.value.source == Some(source)
    ensures r.Success? ==> r.value.description == Some(o.description.GetOr(""))
                           && r.value.lastSeen == Some(o.lastSeen.GetOr(""))
  {
    if o.value.None? && o.pattern.None? then Failure("AttributeError: pattern")
    else
      Success(Indicator(
        Some(o.stixType),
        if o.value.Some? then o.value else o.pattern,
        Some(o.description.GetOr("")),
        Some(o.lastSeen.GetOr("")),
        Some(source)))
  }

  /** The records of all objects, in order; the first object that cannot be normalized fails the whole. */
  function NormalizeAll(objs: seq<StixObject>, source: string): Result<seq<Indicator>>
    decreases |objs|
  {
    if |objs| == 0 then Success([])
    else
      match NormalizeAll(objs[..|objs| - 1], source)
      case Failure(e) => Failure(e)
      case Success(prefix) =>
        match Normalize(objs[|objs| - 1], source)
        case Failure(e) => Failure(e)
        case Success(rec) => Success(prefix + [rec])
  }

  /** Normalization succeeds exactly when every object does, and then yields one record per object, in order. */
  lemma {:induction false} NormalizeAllSpec(objs: seq<StixObject>, source: string)
    ensures NormalizeAll(objs, source).Failure? <==> exists j :: 0 <= j < |objs| && Normalize(objs[j], source).Failure?
    ensures NormalizeAll(objs, source).Success? ==>
      |NormalizeAll(objs, source).value| == |objs|
      && forall j :: 0 <= j < |objs| ==> Normalize(objs[j], source) == Success(NormalizeAll(objs, source).value[j])
    decreases |objs|
  {
    if |objs| > 0 {
      var init := objs[..|objs| - 1];
      NormalizeAllSpec(init, source);
      if exists j :: 0 <= j < |init| && Normalize(init[j], source).Failure? {
        var j :| 0 <= j < |init| && Normalize(init[j], source).Failure?;
        assert objs[j] == init[j];
      }
      if exists j :: 0 <= j < |objs| && Normalize(objs[j], source).Failure? {
        var j :| 0 <= j < |objs| && Normalize(objs[j], source).Failure?;
        if j < |init| {
          assert init[j] == objs[j];
        }
      }
      if NormalizeAll(objs, source).Success? {
        forall j | 0 <= j < |objs| ensures Normalize(objs[j], source) == Success(NormalizeAll(objs, source).value[j]) {
          if j < |init| {
            assert init[j] == objs[j];
          }
        }
      }
    }
  }

  /** What `get_indicators` returns for a client with these fields. */
  function Fetched(serverUrl: Option<string>, collectionName: Option<string>, username: Option<string>, password: Option<string>,
                   network: Network): seq<Indicator>
  {
    if !Truthy(serverUrl) || !Truthy(collectionName) then []
    else
      match network(serverUrl.value, username, password)
      case Failure(_) => []
      case Success(roots) =>
        if |roots| == 0 then []  // `api_roots[0]` raises
        else
          match roots[0].collections
          case Failure(_) => []
          case Success(cols) =>
            match FirstTitle(cols, collectionName.value)
            case None => []
            case Some(k) =>
              match cols[k].query
              case Failure(_) => []
              case Success(objs) =>
                match NormalizeAll(objs, collectionName.value)
                case Failure(_) => []
                case Success(records) => records
  }

  /** Without a server URL or a collection name nothing is fetched. */
  lemma FetchedGuard(serverUrl: Option<string>, collectionName: Option<string>, username: Option<string>, password: Option<string>,
                     network: Network)
    requires !Truthy(serverUrl) || !Truthy(collectionName)
    ensures Fetched(serverUrl, collectionName, username, password, network) == []
  {
  }

  /**
   * Any failure yields nothing: the server call, `api_roots[0]` on a server without API roots,
   * reading the first root's collections, or the query of the first collection with the title.
   */
  lemma FetchedFailures(serverUrl: Option<string>, collectionName: Option<string>, username: Option<string>, password: Option<string>,
                        network: Network)
    requires Truthy(serverUrl) && Truthy(collectionName)
    requires var server := network(serverUrl.value, username, password);
      server.Failure? || |server.value| == 0 || server.value[0].collections.Failure?
      || (var cols := server.value[0].collections.value;
          var k := FirstTitle(cols, collectionName.value);
          k.Some? && cols[k.value].query.Failure?)
    ensures Fetched(serverUrl, collectionName, username, password, network) == []
  {
  }

  /** When no collection of the first API root has the title, nothing is fetched. */
  lemma FetchedNoMatch(serverUrl: Option<string>, collectionName: Option<string>, username: Option<string>, password: Option<string>,
                       network: Network)
    requires Truthy(serverUrl) && Truthy(collectionName)
    requires var server := network(serverUrl.value, username, password);
      server.Success? && |server.value| > 0 && server.value[0].collections.Success?
      && forall j :: 0 <= j < |server.value[0].collections.value| ==> server.value[0].collections.value[j].title != collectionName.value
    ensures Fetched(serverUrl, collectionName, username, password, network) == []
  {
  }

  /**
   * Only the first API root is consulted and only its first collection with the title: two servers
   * that agree on the first root's collections up to and including that one yield the same records.
   */
  lemma {:induction false} FetchedFirstMatchOnly(serverUrl: Option<string>, collectionName: Option<string>,
                                                 username: Option<string>, password: Option<string>,
                                                 network1: Network, network2: Network, k: nat)
    requires Truthy(serverUrl) && Truthy(collectionName)
    requires var s1 := network1(serverUrl.value, username, password);
             var s2 := network2(serverUrl.value, username, password);
      s1.Success? && s2.Success? && |s1.value| > 0 && |s2.value| > 0
      && s1.value[0].collections.Success? && s2.value[0].collections.Success?
      && FirstTitle(s1.value[0].collections.value, collectionName.value) == Some(k)
      && k < |s2.value[0].collections.value|
      && s1.value[0].collections.value[..k + 1] == s2.value[0].collections.value[..k + 1]
    ensures Fetched(serverUrl, collectionName, username, password, network1)
         == Fetched(serverUrl, collectionName, username, password, network2)
  {
    var cols1 := network1(serverUrl.value, username, password).value[0].collections.value;
    var cols2 := network2(serverUrl.value, username, password).value[0].collections.value;
    var name := collectionName.value;
    assert cols1[k] == cols1[..k + 1][k] == cols2[..k + 1][k] == cols2[k];
    forall j | 0 <= j < k ensures cols2[j].title != name {
      assert cols1[j] == cols1[..k + 1][j] == cols2[..k + 1][j] == cols2[j];
    }
    assert FirstTitle(cols2, name) == Some(k);
  }

  /**
   * When the collection is found and its query succeeds, the result is one record per object, in
   * order, or nothing at all when some object can be normalized by neither `value` nor `pattern`.
   */
  lemma FetchedRecords(serverUrl: Option<string>, collectionName: Option<string>, username: Option<string>, password: Option<string>,
                       network: Network, k: nat, objs: seq<StixObject>)
    requires Truthy(serverUrl) && Truthy(collectionName)
    requires var server := network(serverUrl.value, username, password);
      server.Success? && |server.value| > 0 && server.value[0].collections.Success?
      && FirstTitle(server.value[0].collections.value, collectionName.value) == Some(k)
      && server.value[0].collections.value[k].query == Success(objs)
    ensures var r := Fetched(serverUrl, collectionName, username, password, network);
      if forall j :: 0 <= j < |objs| ==> objs[j].value.Some? || objs[j].pattern.Some? then
        |r| == |objs| && forall j :: 0 <= j < |objs| ==> Normalize(objs[j], collectionName.value) == Success(r[j])
      else
        r == []
  {
    NormalizeAllSpec(objs, collectionName.value);
  }

  // ---------------------------------------------------------------------------------------------
  // The client object

  /** A client for one server and, optionally, one collection on it. */
  class Client {
    var serverUrl: Option<string>
    var collectionName: Option<string>
    var username: Option<string>
    var password: Option<string>

    constructor (serverUrl: Option<string>, collectionName: Option<string>, username: Option<string>, password: Option<string>)
      ensures this.serverUrl == serverUrl && this.collectionName == collectionName
      ensures this.username == username && this.password == password
    {
      this.serverUrl := serverUrl;
      this.collectionName := collectionName;
      this.username := username;
      this.password := password;
    }

    /** The collections of every API root of the server, each flattened into a record; nothing on any failure. */
    method DiscoverCollections(network: Network) returns (collections: seq<CollectionRecord>)
      ensures collections == Discovery(serverUrl, username, password, network)
    {
      if !Truthy(serverUrl) {
        return [];
      }
      var server := network(serverUrl.value, username, password);
      if server.Failure? {
        return [];
      }
      var roots := server.value;
      collections := [];
      var i := 0;
      while i < |roots|
        invariant 0 <= i <= |roots|
        invariant Flattened(roots[..i]) == Success(collections)
      {
        var listing := roots[i].collections;
        if listing.Failure? {
          FlattenedPrefixFails(roots, i);
          return [];
        }
        var cols := listing.value;
        ghost var before := collections;
        var j := 0;
        while j < |cols|
          invariant 0 <= j <= |cols|
          invariant collections == before + DescribeAll(cols[..j])
        {
          collections := collections + [Describe(cols[j])];
          j := j + 1;
        }
        assert cols[..j] == cols;
        assert roots[..i + 1][..i] == roots[..i];
        i := i + 1;
      }
      assert roots[..i] == roots;
    }

    /**
     * The indicators of the first collection of the first API root whose title is the collection
     * name, each flattened into a record; nothing on any failure or when no title matches.
     */
    method GetIndicators(network: Network) returns (simpleIndicators: seq<Indicator>)
      ensures simpleIndicators == Fetched(serverUrl, collectionName, username, password, network)
    {
      if !Truthy(serverUrl) || !Truthy(collectionName) {
        return [];
      }
      var server := network(serverUrl.value, username, password);
      if server.Failure? || |server.value| == 0 {
        return [];
      }
      var listing := server.value[0].collections;
      if listing.Failure? {
        return [];
      }
      var cols := listing.value;
      var name := collectionName.value;
      var i := 0;
      while i < |cols|
        invariant 0 <= i <= |cols|
        invariant forall j :: 0 <= j < i ==> cols[j].title != name
      {
        if cols[i].title == name {
          var found := cols[i].query;
          if found.Failure? {
            return [];
          }
          var objs := found.value;
          simpleIndicators := [];
          var n := 0;
          while n < |objs|
            invariant 0 <= n <= |objs|
            invariant NormalizeAll(objs[..n], name) == Success(simpleIndicators)
          {
            var rec := Normalize(objs[n], name);
            if rec.Failure? {
              NormalizeAllSpec(objs, name);
              return [];
            }
            simpleIndicators := simpleIndicators + [rec.value];
            assert objs[..n + 1][..n] == objs[..n];
            n := n + 1;
          }
          assert objs[..n] == objs;
          return;
        }
        i := i + 1;
      }
      return [];
    }
  }
}
