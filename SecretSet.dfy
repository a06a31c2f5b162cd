/** Publishing an Actions secret (`gh secret set`): pkg/cmd/secret/set/http.go.
    The GraphQL and REST calls are not performed: the model records each call it
    would issue, and takes what the server answers as an input. */
module SecretSet {
  import opened Wrappers
  import opened Strings

  /** `shared.Selected`: the visibility that restricts an organisation secret
      to a list of repositories. */
  const Selected := "selected"
  const NotFoundType := "NOT_FOUND"
  const AliasPrefix := "repo_"

  // ---------------------------------------------------------------------------
  // Entities
  // ---------------------------------------------------------------------------

  /** The public key the value was encrypted for; only its ID is sent. */
  datatype PubKey = PubKey(id: string)

  /** The part of `SetOptions` that the publishing code reads. */
  datatype SetOptions = SetOptions(
    secretName: string,
    orgName: string,
    visibility: string,
    repositoryNames: seq<string>)

  /** A repository as `ghrepo.Interface` exposes it. */
  datatype Repo = Repo(host: string, owner: string, name: string)

  /** `SecretPayload`; a nil `Repositories` slice is the empty sequence. */
  datatype SecretPayload = SecretPayload(
    encryptedValue: string,
    visibility: string,
    repositories: seq<int>,
    keyID: string)

  /** A JSON object as the ordered list of its members. */
  datatype JsonValue = JString(str: string) | JIntArray(ints: seq<int>)
  datatype Field = Field(name: string, value: JsonValue)

  /** One entry of a GraphQL error response: its `Type` and `Path`. */
  datatype GraphQLErrorItem = GraphQLErrorItem(kind: string, path: seq<string>)

  /** A non-nil error returned by `client.GraphQL`: either an
      `*api.GraphQLErrorResponse`, or any other error; `text` is its `Error()`. */
  datatype GraphQLFailure =
    | ErrorResponse(errors: seq<GraphQLErrorItem>, text: string)
    | OtherFailure(text: string)

  /** What `client.GraphQL` leaves behind: the decoded map from alias to a
      possibly nil `{databaseId}` object, and the error it returns. */
  datatype GraphQLReply = GraphQLReply(data: map<string, Option<int>>, failure: Option<GraphQLFailure>)

  /** The errors this file creates or passes on. */
  datatype Error =
    | NotFound(owner: string, pathHead: string)
    | LookupFailed(cause: GraphQLFailure)
    | IDsLookupFailed(names: seq<string>, inner: Error)
    | RequestFailed(text: string)

  /** A call issued to the API client. */
  datatype Call =
    | GraphQL(host: string, query: string)
    | Rest(host: string, verb: string, path: string, body: seq<Field>)

  /** What a publishing operation did: the calls it issued, in order, and the
      error it returned. */
  datatype Exchange = Exchange(calls: seq<Call>, err: Option<Error>)

  // ---------------------------------------------------------------------------
  // Error texts
  // ---------------------------------------------------------------------------

  function Join(parts: seq<string>, sep: string): string
  {
    if |parts| == 0 then ""
    else if |parts| == 1 then parts[0]
    else parts[0] + sep + Join(parts[1..], sep)
  }

  /** The text `Error()` gives for each error. A list is printed as `%v` prints
      a `[]string`. */
  function Message(e: Error): string
  {
    match e
    case NotFound(owner, head) => "could not find " + owner + "/" + head
    case LookupFailed(cause) => "failed to look up repositories: " + cause.text
    case IDsLookupFailed(names, inner) =>
      "failed to look up IDs for repositories [" + Join(names, " ") + "]: " + Message(inner)
    case RequestFailed(text) => text
  }

  // ---------------------------------------------------------------------------
  // Serialisation of the payload
  // ---------------------------------------------------------------------------

  function FieldNames(body: seq<Field>): (names: seq<string>)
    ensures |names| == |body|
  {
    if |body| == 0 then [] else [body[0].name] + FieldNames(body[1..])
  }

  /** The value of the first member called `name`; `Encode` never emits two
      members with the same name, so this is the one a JSON decoder keeps. */
  function Member(body: seq<Field>, name: string): (v: Option<JsonValue>)
    ensures v.Some? <==> name in FieldNames(body)
  {
    if |body| == 0 then None
    else if body[0].name == name then Some(body[0].value)
    else Member(body[1..], name)
  }

  function StringMember(body: seq<Field>, name: string): string
  {
    match Member(body, name)
    case Some(JString(s)) => s
    case _ => ""
  }

  function IntsMember(body: seq<Field>, name: string): seq<int>
  {
    match Member(body, name)
    case Some(JIntArray(ns)) => ns
    case _ => []
  }

  /** Decoding a body back into a `SecretPayload`, with Go's zero values for
      absent members: the inverse that `Encode` is checked against. */
  function Decode(body: seq<Field>): SecretPayload
  {
    SecretPayload(
      StringMember(body, "encrypted_value"),
      StringMember(body, "visibility"),
      IntsMember(body, "selected_repository_ids"),
      StringMember(body, "key_id"))
  }

  /** The members of `[f] + rest`: `f` first, then those of `rest`. */
  lemma MemberCons(f: Field, rest: seq<Field>, name: string)
    ensures FieldNames([f] + rest) == [f.name] + FieldNames(rest)
    ensures Member([f] + rest, name) == if f.name == name then Some(f.value) else Member(rest, name)
  {
    assert ([f] + rest)[1..] == rest;
  }

  /** `json.Marshal` of a `SecretPayload`: members in declaration order;
      `visibility` and `selected_repository_ids` carry `omitempty`. */
  function Encode(p: SecretPayload): (body: seq<Field>)
    ensures Decode(body) == p
    ensures "encrypted_value" in FieldNames(body) && "key_id" in FieldNames(body)
    ensures "visibility" in FieldNames(body) <==> p.visibility != ""
    ensures "selected_repository_ids" in FieldNames(body) <==> |p.repositories| > 0
  {
    var key := [Field("key_id", JString(p.keyID))];
    var repositories :=
      if |p.repositories| == 0 then key
      else [Field("selected_repository_ids", JIntArray(p.repositories))] + key;
    var visibility :=
      if p.visibility == "" then repositories
      else [Field("visibility", JString(p.visibility))] + repositories;
    var body := [Field("encrypted_value", JString(p.encryptedValue))] + visibility;
    EncodeMembers(p, key, repositories, visibility, body);
    body
  }

  lemma EncodeMembers(p: SecretPayload, key: seq<Field>, repositories: seq<Field>, visibility: seq<Field>, body: seq<Field>)
    requires key == [Field("key_id", JString(p.keyID))]
    requires repositories == if |p.repositories| == 0 then key
                             else [Field("selected_repository_ids", JIntArray(p.repositories))] + key
    requires visibility == if p.visibility == "" then repositories
                           else [Field("visibility", JString(p.visibility))] + repositories
    requires body == [Field("encrypted_value", JString(p.encryptedValue))] + visibility
    ensures Decode(body) == p
    ensures "encrypted_value" in FieldNames(body) && "key_id" in FieldNames(body)
    ensures "visibility" in FieldNames(body) <==> p.visibility != ""
    ensures "selected_repository_ids" in FieldNames(body) <==> |p.repositories| > 0
  {
    var ev, vis, ids, kid := "encrypted_value", "visibility", "selected_repository_ids", "key_id";
    assert key == [key[0]] + [];
    MemberCons(key[0], [], kid);
    MemberCons(key[0], [], ids);
    MemberCons(key[0], [], vis);
    MemberCons(key[0], [], ev);
    if |p.repositories| > 0 {
      MemberCons(repositories[0], key, kid);
      MemberCons(repositories[0], key, ids);
      MemberCons(repositories[0], key, vis);
      MemberCons(repositories[0], key, ev);
    }
    if p.visibility != "" {
      MemberCons(visibility[0], repositories, kid);
      MemberCons(visibility[0], repositories, ids);
      MemberCons(visibility[0], repositories, vis);
      MemberCons(visibility[0], repositories, ev);
    }
    MemberCons(body[0], visibility, kid);
    MemberCons(body[0], visibility, ids);
    MemberCons(body[0], visibility, vis);
    MemberCons(body[0], visibility, ev);
  }

  // ---------------------------------------------------------------------------
  // putSecret, putOrgSecret, putRepoSecret
  // ---------------------------------------------------------------------------

  /** `putSecret`: one PUT of the encoded payload; the client's error, if any,
      is returned as it is. `restErr` is the outcome of that call. */
  function PutSecret(host: string, path: string, payload: SecretPayload, restErr: Option<string>): (ex: Exchange)
    ensures |ex.calls| == 1 && ex.calls[0].Rest?
    ensures ex.calls[0].host == host && ex.calls[0].verb == "PUT" && ex.calls[0].path == path
    ensures Decode(ex.calls[0].body) == payload
    ensures ex.err.Some? <==> restErr.Some?
    ensures ex.err.Some? ==> Message(ex.err.value) == restErr.value
  {
    var err := match restErr
      case None => None
      case Some(text) => Some(RequestFailed(text));
    Exchange([Rest(host, "PUT", path, Encode(payload))], err)
  }

  function OrgSecretPath(org: string, secretName: string): string
  {
    "orgs/" + org + "/actions/secrets/" + secretName
  }

  function RepoSecretPath(repo: Repo, secretName: string): string
  {
    "repos/" + repo.owner + "/" + repo.name + "/actions/secrets/" + secretName
  }

  /** `putRepoSecret`: a payload with only the value and the key ID, sent to
      the repository's own host. */
  function PutRepoSecret(pk: PubKey, repo: Repo, secretName: string, eValue: string, restErr: Option<string>): (ex: Exchange)
    ensures |ex.calls| == 1 && ex.calls[0].Rest? && ex.calls[0].verb == "PUT"
    ensures ex.calls[0].host == repo.host
    ensures ex.calls[0].path == RepoSecretPath(repo, secretName)
    ensures Decode(ex.calls[0].body) == SecretPayload(eValue, "", [], pk.id)
    ensures FieldNames(ex.calls[0].body) == ["encrypted_value", "key_id"]
    ensures ex.err.Some? <==> restErr.Some?
    ensures ex.err.Some? ==> Message(ex.err.value) == restErr.value
  {
    PutSecret(repo.host, RepoSecretPath(repo, secretName), SecretPayload(eValue, "", [], pk.id), restErr)
  }

  /** What `mapRepoNameToID` returns for a reply: the IDs, or the error. */
  ghost function LookupOutcome(org: string, names: seq<string>, reply: GraphQLReply): (seq<int>, Option<Error>)
    requires ReplyUsable(reply, |names|)
  {
    match reply.failure
    case Some(f) => ([], Some(Classify(org, f)))
    case None =>
      SortedKeysMembers(reply.data.Keys);
      (Fill(SortedKeys(reply.data.Keys), reply.data, |names|), None)
  }

  /** The call log and error of `putOrgSecret` for a given reply to the lookup. */
  ghost predicate OrgExchange(ex: Exchange, host: string, pk: PubKey, opts: SetOptions, eValue: string,
                              quote: string -> string, reply: GraphQLReply, restErr: Option<string>)
    requires opts.orgName != "" && opts.visibility == Selected ==> ReplyUsable(reply, |opts.repositoryNames|)
  {
    var lookup := opts.orgName != "" && opts.visibility == Selected;
    var outcome := if lookup then LookupOutcome(opts.orgName, opts.repositoryNames, reply) else ([], None);
    var before := if lookup then [GraphQL(host, QueryText(opts.orgName, opts.repositoryNames, quote))] else [];
    if outcome.1.Some? then
      ex == Exchange(before, Some(IDsLookupFailed(opts.repositoryNames, outcome.1.value)))
    else
      var put := PutSecret(host, OrgSecretPath(opts.orgName, opts.secretName),
                           SecretPayload(eValue, opts.visibility, outcome.0, pk.id), restErr);
      ex == Exchange(before + put.calls, put.err)
  }

  /** `putOrgSecret`. The repository lookup runs only for a named organisation
      with visibility `selected`; if it fails, nothing is written. */
  method PutOrgSecret(host: string, pk: PubKey, opts: SetOptions, eValue: string,
                      quote: string -> string, reply: GraphQLReply, restErr: Option<string>)
    returns (ex: Exchange)
    requires opts.orgName != "" && opts.visibility == Selected ==> ReplyUsable(reply, |opts.repositoryNames|)
    ensures OrgExchange(ex, host, pk, opts, eValue, quote, reply, restErr)
    // the lookup is the first call exactly when it is due
    ensures (|ex.calls| > 0 && ex.calls[0].GraphQL?) <==> opts.orgName != "" && opts.visibility == Selected
    // a failed lookup writes nothing and is wrapped
    ensures ex.err.Some? && ex.err.value.IDsLookupFailed? ==> |ex.calls| == 1 && ex.calls[0].GraphQL?
    // otherwise exactly one PUT, last, to the organisation path
    ensures !(ex.err.Some? && ex.err.value.IDsLookupFailed?) ==>
      var put := ex.calls[|ex.calls| - 1];
      && put.Rest? && put.verb == "PUT" && put.host == host
      && put.path == OrgSecretPath(opts.orgName, opts.secretName)
      && Decode(put.body).encryptedValue == eValue
      && Decode(put.body).keyID == pk.id
      && Decode(put.body).visibility == opts.visibility
      && (|Decode(put.body).repositories| > 0 ==> opts.visibility == Selected && opts.orgName != "")
    // with fewer than 1001 names the IDs come back in input order
    ensures opts.orgName != "" && opts.visibility == Selected && reply.failure.None?
            && |opts.repositoryNames| <= 1000 && reply.data.Keys == AliasSet(|opts.repositoryNames|)
            ==> var put := ex.calls[|ex.calls| - 1];
                put.Rest? && Decode(put.body).repositories == InOrder(reply.data, |opts.repositoryNames|)
  {
    var repositoryIDs: seq<int> := [];
    var calls: seq<Call> := [];
    if opts.orgName != "" && opts.visibility == Selected {
      var query, ids, err := MapRepoNameToID(opts.orgName, opts.repositoryNames, quote, reply);
      calls := [GraphQL(host, query)];
      if err.Some? {
        return Exchange(calls, Some(IDsLookupFailed(opts.repositoryNames, err.value)));
      }
      repositoryIDs := ids;
    }
    var payload := SecretPayload(eValue, opts.visibility, repositoryIDs, pk.id);
    var put := PutSecret(host, OrgSecretPath(opts.orgName, opts.secretName), payload, restErr);
    ex := Exchange(calls + put.calls, put.err);
  }

  // ---------------------------------------------------------------------------
  // Aliases: `repo_%03d`
  // ---------------------------------------------------------------------------

  function Digit(d: nat): char
    requires d < 10
  {
    ('0' as int + d) as char
  }

  /** `%d` of a non-negative integer. */
  function Decimal(n: nat): (s: string)
    ensures |s| > 0
  {
    if n < 10 then [Digit(n)] else Decimal(n / 10) + [Digit(n % 10)]
  }

  /** `%0<width>d` padding: zeros on the left up to `width`; never truncates. */
  function ZeroPad(s: string, width: nat): string
  {
    if |s| >= width then s else seq(width - |s|, _ => '0') + s
  }

  /** The alias of the `i`-th sub-query. */
  function Alias(i: nat): string
  {
    AliasPrefix + ZeroPad(Decimal(i), 3)
  }

  function DigitValue(c: char): nat
  {
    if '0' <= c <= '9' then c as int - '0' as int else 0
  }

  /** The number a string of decimal digits denotes (leading zeros allowed). */
  function ParseDecimal(s: string): nat
  {
    if |s| == 0 then 0 else ParseDecimal(s[..|s| - 1]) * 10 + DigitValue(s[|s| - 1])
  }

  lemma {:induction false} ParseDecimalOfDecimal(n: nat)
    ensures ParseDecimal(Decimal(n)) == n
  {
    if n >= 10 {
      var s := Decimal(n);
      assert s[..|s| - 1] == Decimal(n / 10);
      ParseDecimalOfDecimal(n / 10);
    }
  }

  lemma {:induction false} ParseDecimalLeadingZeros(k: nat, s: string)
    ensures ParseDecimal(seq(k, _ => '0') + s) == ParseDecimal(s)
    decreases |s|
  {
    var z := seq(k, _ => '0');
    if |s| == 0 {
      assert z + s == z;
      ParseDecimalZeros(k);
    } else {
      assert (z + s)[..|z + s| - 1] == z + s[..|s| - 1];
      ParseDecimalLeadingZeros(k, s[..|s| - 1]);
    }
  }

  lemma {:induction false} ParseDecimalZeros(k: nat)
    ensures ParseDecimal(seq(k, _ => '0')) == 0
  {
    if k > 0 {
      assert seq(k, _ => '0')[..k - 1] == seq(k - 1, _ => '0');
      ParseDecimalZeros(k - 1);
    }
  }

  /** The alias is `repo_` followed by a number that reads back as the index,
      three characters wide below 1000; so distinct indices get distinct aliases. */
  lemma AliasRoundTrip(i: nat)
    ensures |Alias(i)| >= |AliasPrefix| && Alias(i)[..|AliasPrefix|] == AliasPrefix
    ensures ParseDecimal(Alias(i)[|AliasPrefix|..]) == i
    ensures i < 1000 <==> |Alias(i)| == |AliasPrefix| + 3
  {
    var d := Decimal(i);
    assert Alias(i)[|AliasPrefix|..] == ZeroPad(d, 3);
    ParseDecimalOfDecimal(i);
    if |d| < 3 { ParseDecimalLeadingZeros(3 - |d|, d); }
    ThreeDigitsBound(i);
  }

  lemma ThreeDigitsBound(i: nat)
    ensures i < 1000 <==> |Decimal(i)| <= 3
  {
    if i >= 10 {
      if i < 100 {
      } else if i < 1000 {
        assert i / 10 >= 10 && i / 10 / 10 < 10;
        assert |Decimal(i / 10)| == 2;
      } else {
        DecimalLength(i);
      }
    }
  }

  lemma {:induction false} DecimalLength(i: nat)
    requires i >= 1000
    ensures |Decimal(i)| >= 4
  {
    assert i / 10 >= 100 && i / 10 / 10 >= 10;
    assert |Decimal(i / 10 / 10)| >= 2;
    assert |Decimal(i / 10)| >= 3;
  }

  lemma ThreeDigits(i: nat)
    requires i < 1000
    ensures ZeroPad(Decimal(i), 3) == [Digit(i / 100), Digit(i / 10 % 10), Digit(i % 10)]
  {
    if i < 10 {
    } else if i < 100 {
    } else {
      assert i / 10 / 10 == i / 100;
      assert Decimal(i / 10) == [Digit(i / 100), Digit(i / 10 % 10)];
    }
  }

  lemma LessOfThree(a: string, b: string)
    requires |a| == 3 && |b| == 3
    ensures Less(a, b) <==>
      a[0] < b[0] || (a[0] == b[0] && (a[1] < b[1] || (a[1] == b[1] && a[2] < b[2])))
  {
    assert Less(a, b) == if a[0] != b[0] then a[0] < b[0] else Less(a[1..], b[1..]);
    assert Less(a[1..], b[1..]) == if a[1] != b[1] then a[1] < b[1] else Less(a[2..], b[2..]);
    assert a[1..][1..] == a[2..] && b[1..][1..] == b[2..];
    assert Less(a[2..], b[2..]) == if a[2] != b[2] then a[2] < b[2] else Less([], []);
    assert a[2..][1..] == [] && b[2..][1..] == [];
  }

  /** Comparing two numbers below 1000 digit by digit. */
  lemma DigitsOrder(i: nat, j: nat)
    requires i < j < 1000
    ensures i / 100 < j / 100
            || (i / 100 == j / 100 && (i / 10 % 10 < j / 10 % 10
                                       || (i / 10 % 10 == j / 10 % 10 && i % 10 < j % 10)))
  {
    assert i == 100 * (i / 100) + 10 * (i / 10 % 10) + i % 10;
    assert j == 100 * (j / 100) + 10 * (j / 10 % 10) + j % 10;
  }

  /** Below 1000, aliases sort in index order. */
  lemma AliasOrder(i: nat, j: nat)
    requires i < j < 1000
    ensures Less(Alias(i), Alias(j))
  {
    var pi, pj := ZeroPad(Decimal(i), 3), ZeroPad(Decimal(j), 3);
    ThreeDigits(i);
    ThreeDigits(j);
    LessPrefix(AliasPrefix, pi, pj);
    LessOfThree(pi, pj);
    DigitsOrder(i, j);
  }

  /** The 1001st alias sorts between `repo_100` and `repo_101`. */
  lemma AliasOrderFailsAt1000()
    ensures Less(Alias(1000), Alias(101))
  {
    assert Decimal(1000) == "1000";
    assert Decimal(101) == "101";
    LessPrefix(AliasPrefix + "10", "00", "1");
    assert Alias(1000) == AliasPrefix + "10" + "00";
    assert Alias(101) == AliasPrefix + "10" + "1";
  }

  /** The aliases of a batch of `n` names, in input order. */
  function Aliases(n: nat): (r: seq<string>)
    ensures |r| == n && forall i :: 0 <= i < n ==> r[i] == Alias(i)
  {
    seq(n, i requires 0 <= i < n => Alias(i))
  }

  function AliasSet(n: nat): set<string>
  {
    set i | 0 <= i < n :: Alias(i)
  }

  lemma AliasesStrictlySorted(n: nat)
    requires n <= 1000
    ensures StrictlySorted(Aliases(n))
  {
    forall i, j | 0 <= i < j < n ensures Less(Aliases(n)[i], Aliases(n)[j]) {
      AliasOrder(i, j);
    }
  }

  lemma {:induction false} AliasesMultiset(n: nat)
    ensures multiset(Aliases(n)) == multiset(AliasSet(n))
  {
    if n > 0 {
      AliasesMultiset(n - 1);
      assert Aliases(n) == Aliases(n - 1) + [Alias(n - 1)];
      assert AliasSet(n) == AliasSet(n - 1) + {Alias(n - 1)};
      assert Alias(n - 1) !in AliasSet(n - 1) by {
        forall i | 0 <= i < n - 1 ensures Alias(i) != Alias(n - 1) {
          AliasRoundTrip(i);
          AliasRoundTrip(n - 1);
        }
      }
    }
  }

  /** Sorting the keys of a reply to `n <= 1000` sub-queries gives back the
      aliases in input order. */
  lemma SortedAliases(n: nat)
    requires n <= 1000
    ensures SortedKeys(AliasSet(n)) == Aliases(n)
  {
    AliasesStrictlySorted(n);
    AliasesMultiset(n);
    SortedKeysUnique(Aliases(n), AliasSet(n));
  }

  /** From 1001 names on, the sorted keys are no longer in input order. */
  lemma SortedAliasesBeyond1000(n: nat)
    requires n > 1000
    ensures SortedKeys(AliasSet(n)) != Aliases(n)
  {
    StrictlySortedIsSorted(SortedKeys(AliasSet(n)));
    AliasOrderFailsAt1000();
    assert !Sorted(Aliases(n)) by {
      assert Aliases(n)[101] == Alias(101) && Aliases(n)[1000] == Alias(1000);
    }
  }

  // ---------------------------------------------------------------------------
  // The query
  // ---------------------------------------------------------------------------

  /** The `i`-th aliased sub-query; `quote` stands for Go's `%q`. */
  function SubQuery(i: nat, org: string, name: string, quote: string -> string): string
  {
    "\n\t\t\t" + Alias(i) + ": repository(owner: " + quote(org) + ", name: " + quote(name)
    + ") {\n\t\t\t\tdatabaseId\n\t\t\t}\n\t\t"
  }

  function SubQueries(org: string, names: seq<string>, quote: string -> string): (qs: seq<string>)
    ensures |qs| == |names|
  {
    seq(|names|, i requires 0 <= i < |names| => SubQuery(i, org, names[i], quote))
  }

  /** `strings.Join(parts, "")`. */
  function Concat(parts: seq<string>): string
  {
    if |parts| == 0 then "" else parts[0] + Concat(parts[1..])
  }

  const QueryHead := "query MapRepositoryNames { "
  const QueryTail := " }"

  function QueryText(org: string, names: seq<string>, quote: string -> string): string
  {
    QueryHead + Concat(SubQueries(org, names, quote)) + QueryTail
  }

  lemma {:induction false} ConcatAppend(a: seq<string>, b: seq<string>)
    ensures Concat(a + b) == Concat(a) + Concat(b)
  {
    if |a| > 0 {
      assert (a + b)[1..] == a[1..] + b;
      ConcatAppend(a[1..], b);
    } else {
      assert a + b == b;
    }
  }

  lemma ConcatSplit(parts: seq<string>, i: nat)
    requires i < |parts|
    ensures Concat(parts) == Concat(parts[..i]) + parts[i] + Concat(parts[i + 1..])
  {
    var before, from := parts[..i], parts[i..];
    assert parts == before + from;
    ConcatAppend(before, from);
    assert from[0] == parts[i] && from[1..] == parts[i + 1..];
  }

  /** Where each part sits in the concatenation. */
  lemma ConcatAt(parts: seq<string>, i: nat)
    requires i < |parts|
    ensures |Concat(parts[..i])| + |parts[i]| <= |Concat(parts)|
    ensures Concat(parts)[|Concat(parts[..i])|..|Concat(parts[..i])| + |parts[i]|] == parts[i]
  {
    ConcatSplit(parts, i);
    var x, y := Concat(parts[..i]), Concat(parts[i + 1..]);
    assert Concat(parts) == x + parts[i] + y;
    assert (x + parts[i] + y)[|x|..|x| + |parts[i]|] == parts[i];
  }

  lemma SliceInMiddle(x: string, c: string, y: string, a: nat, b: nat)
    requires a <= b <= |c|
    ensures |x| + b <= |x + c + y| && (x + c + y)[|x| + a..|x| + b] == c[a..b]
  {
  }

  /** The query holds one aliased sub-query per name, in input order: the
      `i`-th one starts right after the first `i`. */
  lemma QueryLayout(org: string, names: seq<string>, quote: string -> string, i: nat)
    requires i < |names|
    ensures var start := |QueryHead| + |Concat(SubQueries(org, names, quote)[..i])|;
            var q := SubQuery(i, org, names[i], quote);
            start + |q| <= |QueryText(org, names, quote)|
            && QueryText(org, names, quote)[start..start + |q|] == q
  {
    var qs := SubQueries(org, names, quote);
    ConcatAt(qs, i);
    var a := |Concat(qs[..i])|;
    SliceInMiddle(QueryHead, Concat(qs), QueryTail, a, a + |qs[i]|);
  }

  /** The first loop of `mapRepoNameToID`: one sub-query per name, then one query. */
  method BuildQuery(org: string, names: seq<string>, quote: string -> string) returns (query: string)
    ensures query == QueryText(org, names, quote)
  {
    var queries: seq<string> := [];
    var i := 0;
    while i < |names|
      invariant 0 <= i <= |names|
      invariant queries == SubQueries(org, names, quote)[..i]
    {
      assert SubQueries(org, names, quote)[..i + 1] == queries + [SubQuery(i, org, names[i], quote)];
      queries := queries + [SubQuery(i, org, names[i], quote)];
      i := i + 1;
    }
    assert queries == SubQueries(org, names, quote);
    query := QueryHead + Concat(queries) + QueryTail;
  }

  // ---------------------------------------------------------------------------
  // The reply
  // ---------------------------------------------------------------------------

  /** The index of the first `NOT_FOUND` entry, if any. */
  function FirstNotFound(errors: seq<GraphQLErrorItem>): (r: Option<nat>)
    ensures r.Some? ==> r.value < |errors| && errors[r.value].kind == NotFoundType
    ensures forall k :: 0 <= k < |errors| && (r.None? || k < r.value) ==> errors[k].kind != NotFoundType
  {
    if |errors| == 0 then None
    else if errors[0].kind == NotFoundType then Some(0)
    else match FirstNotFound(errors[1..])
      case None => None
      case Some(k) => Some(k + 1)
  }

  /** The entry reported as not found has a path; the code reads `Path[0]`. */
  predicate NotFoundHasPath(f: GraphQLFailure)
  {
    f.ErrorResponse? ==>
      match FirstNotFound(f.errors)
      case Some(k) => |f.errors[k].path| > 0
      case None => true
  }

  /** The error `mapRepoNameToID` returns for a failed call. */
  function Classify(org: string, f: GraphQLFailure): Error
    requires NotFoundHasPath(f)
  {
    if f.ErrorResponse? && FirstNotFound(f.errors).Some? then
      NotFound(org, f.errors[FirstNotFound(f.errors).value].path[0])
    else
      LookupFailed(f)
  }

  /** What the code relies on without checking: a nil entry or more keys
      than names would make it panic, and a reported `NOT_FOUND` has a path. */
  predicate ReplyUsable(reply: GraphQLReply, n: nat)
  {
    match reply.failure
    case Some(f) => NotFoundHasPath(f)
    case None => |reply.data.Keys| <= n && forall k :: k in reply.data ==> reply.data[k].Some?
  }

  /** The result slice: `n` zeros overwritten, in key order, by the IDs. */
  function Fill(keys: seq<string>, data: map<string, Option<int>>, n: nat): (r: seq<int>)
    requires |keys| <= n
    requires forall k :: k in keys ==> k in data && data[k].Some?
    ensures |r| == n
  {
    seq(n, i requires 0 <= i < n => if i < |keys| then data[keys[i]].value else 0)
  }

  /** The IDs of the reply listed in input order, alias by alias. */
  function InOrder(data: map<string, Option<int>>, n: nat): seq<int>
    requires forall i :: 0 <= i < n ==> Alias(i) in data && data[Alias(i)].Some?
  {
    seq(n, i requires 0 <= i < n => data[Alias(i)].value)
  }

  /** Rebuilding the result from the sorted keys puts each name's ID at its
      own index when there are at most 1000 names. */
  lemma FillInInputOrder(data: map<string, Option<int>>, n: nat)
    requires n <= 1000 && data.Keys == AliasSet(n)
    requires forall k :: k in data ==> data[k].Some?
    ensures SortedKeys(data.Keys) == Aliases(n)
    ensures forall i :: 0 <= i < n ==> Alias(i) in data
    ensures Fill(SortedKeys(data.Keys), data, n) == InOrder(data, n)
  {
    SortedAliases(n);
    forall i | 0 <= i < n ensures Alias(i) in data {
      assert Alias(i) in AliasSet(n);
    }
    var filled, ordered := Fill(Aliases(n), data, n), InOrder(data, n);
    assert |filled| == |ordered| == n;
    forall i | 0 <= i < n ensures filled[i] == ordered[i] {
      assert Aliases(n)[i] == Alias(i);
    }
  }

  /** The ID stored under `k`; 0 where there is none. */
  function IdOf(data: map<string, Option<int>>, k: string): int
  {
    if k in data && data[k].Some? then data[k].value else 0
  }

  /** The IDs stored under `keys`, in the order of `keys`. */
  function Ids(keys: seq<string>, data: map<string, Option<int>>): (ids: seq<int>)
    ensures |ids| == |keys|
  {
    seq(|keys|, i requires 0 <= i < |keys| => IdOf(data, keys[i]))
  }

  /** Listing the same keys in another order lists the same IDs in another order. */
  lemma {:induction false} IdsPermutation(a: seq<string>, b: seq<string>, data: map<string, Option<int>>)
    requires multiset(a) == multiset(b)
    ensures multiset(Ids(a, data)) == multiset(Ids(b, data))
    decreases |a|
  {
    if |a| == 0 {
      assert |b| == |multiset(b)| == 0;
    } else {
      var j := IndexOf(b, a[0]);
      var a', b' := a[1..], b[..j] + b[j + 1..];
      IdsRemoveAt(a, 0, data);
      IdsRemoveAt(b, j, data);
      IdsPermutation(a', b', data);
    }
  }

  lemma IndexOf(s: seq<string>, x: string) returns (j: nat)
    requires x in multiset(s)
    ensures j < |s| && s[j] == x
  {
    j :| 0 <= j < |s| && s[j] == x;
  }

  lemma IdsRemoveAt(s: seq<string>, j: nat, data: map<string, Option<int>>)
    requires j < |s|
    ensures |s[..j] + s[j + 1..]| == |s| - 1
    ensures multiset(s[..j] + s[j + 1..]) == multiset(s) - multiset{s[j]}
    ensures j == 0 ==> s[..j] + s[j + 1..] == s[1..]
    ensures multiset(Ids(s, data)) == multiset(Ids(s[..j] + s[j + 1..], data)) + multiset{IdOf(data, s[j])}
  {
    RemoveAt(s, j);
    var before, after := s[..j], s[j + 1..];
    var v := IdOf(data, s[j]);
    assert s == before + ([s[j]] + after);
    IdsAppend(before, [s[j]] + after, data);
    IdsAppend([s[j]], after, data);
    IdsAppend(before, after, data);
    var ib, ia := Ids(before, data), Ids(after, data);
    assert Ids([s[j]], data) == [v];
    assert Ids(s, data) == ib + ([v] + ia);
    assert multiset(ib + ([v] + ia)) == multiset(ib) + multiset{v} + multiset(ia);
  }

  lemma IdsAppend(a: seq<string>, b: seq<string>, data: map<string, Option<int>>)
    ensures Ids(a + b, data) == Ids(a, data) + Ids(b, data)
  {
  }

  lemma RemoveAt(s: seq<string>, j: nat)
    requires j < |s|
    ensures multiset(s[..j] + s[j + 1..]) == multiset(s) - multiset{s[j]}
  {
    assert s == s[..j] + [s[j]] + s[j + 1..];
  }

  /** Rebuilding the result from the sorted keys of a reply lists the same IDs
      as any other listing of its keys, only perhaps in another order. */
  lemma FillSortedPermutation(data: map<string, Option<int>>, order: seq<string>)
    requires forall k :: k in data ==> data[k].Some?
    requires multiset(order) == multiset(data.Keys)
    ensures |SortedKeys(data.Keys)| == |order|
    ensures forall k :: k in SortedKeys(data.Keys) ==> k in data
    ensures multiset(Fill(SortedKeys(data.Keys), data, |order|)) == multiset(Ids(order, data))
  {
    var keys := SortedKeys(data.Keys);
    SortedKeysMembers(data.Keys);
    assert |keys| == |multiset(keys)| == |multiset(order)| == |order|;
    IdsPermutation(keys, order, data);
    FillAllKeys(keys, data);
  }

  /** With more than 1000 names the IDs no longer come back in input order,
      but they are still the same IDs: the result is a permutation of them. */
  lemma FillIsPermutation(data: map<string, Option<int>>, n: nat)
    requires data.Keys == AliasSet(n)
    requires forall k :: k in data ==> data[k].Some?
    ensures forall i :: 0 <= i < n ==> Alias(i) in data
    ensures |SortedKeys(data.Keys)| == n
    ensures forall k :: k in SortedKeys(data.Keys) ==> k in data
    ensures multiset(Fill(SortedKeys(data.Keys), data, n)) == multiset(InOrder(data, n))
  {
    forall i | 0 <= i < n ensures Alias(i) in data {
      assert Alias(i) in AliasSet(n);
    }
    AliasesMultiset(n);
    FillSortedPermutation(data, Aliases(n));
    InOrderIsIds(data, n);
  }

  lemma SortedKeysAreAliases(n: nat)
    ensures multiset(SortedKeys(AliasSet(n))) == multiset(Aliases(n))
  {
    AliasesMultiset(n);
  }

  lemma FillAllKeys(keys: seq<string>, data: map<string, Option<int>>)
    requires forall k :: k in keys ==> k in data && data[k].Some?
    ensures Fill(keys, data, |keys|) == Ids(keys, data)
  {
  }

  lemma InOrderIsIds(data: map<string, Option<int>>, n: nat)
    requires forall i :: 0 <= i < n ==> Alias(i) in data && data[Alias(i)].Some?
    ensures InOrder(data, n) == Ids(Aliases(n), data)
  {
  }

  /** The error scan of `mapRepoNameToID`. */
  method ClassifyFailure(org: string, f: GraphQLFailure) returns (e: Error)
    requires NotFoundHasPath(f)
    ensures e == Classify(org, f)
    ensures e.NotFound? <==> f.ErrorResponse? && exists k :: 0 <= k < |f.errors| && f.errors[k].kind == NotFoundType
  {
    if f.ErrorResponse? {
      var i := 0;
      while i < |f.errors|
        invariant 0 <= i <= |f.errors|
        invariant forall k :: 0 <= k < i ==> f.errors[k].kind != NotFoundType
      {
        if f.errors[i].kind == NotFoundType {
          assert FirstNotFound(f.errors) == Some(i);
          return NotFound(org, f.errors[i].path[0]);
        }
        i := i + 1;
      }
    }
    e := LookupFailed(f);
  }

  /** The second loop of `mapRepoNameToID`: the keys of the map, in whatever
      order the map yields them. */
  method CollectKeys(data: map<string, Option<int>>) returns (keys: array<string>)
    ensures fresh(keys)
    ensures multiset(keys[..]) == multiset(data.Keys)
  {
    keys := new string[|data.Keys|];
    var rest := data.Keys;
    var j := 0;
    while rest != {}
      invariant j + |rest| == keys.Length
      invariant multiset(keys[..j]) + multiset(rest) == multiset(data.Keys)
      decreases |rest|
    {
      var k :| k in rest;
      keys[j] := k;
      assert keys[..j + 1] == keys[..j] + [k];
      assert rest == (rest - {k}) + {k};
      rest := rest - {k};
      j := j + 1;
    }
    assert keys[..j] == keys[..];
  }

  /** The last loop of `mapRepoNameToID`. */
  method FillResult(keys: array<string>, data: map<string, Option<int>>, n: nat) returns (result: array<int>)
    requires keys.Length <= n
    requires forall k :: k in keys[..] ==> k in data && data[k].Some?
    ensures fresh(result)
    ensures result[..] == Fill(keys[..], data, n)
  {
    result := new int[n](_ => 0);
    var i := 0;
    while i < keys.Length
      invariant 0 <= i <= keys.Length
      invariant forall k :: 0 <= k < n ==> result[k] == if k < i then data[keys[k]].value else 0
    {
      assert keys[i] in keys[..];
      result[i] := data[keys[i]].value;
      i := i + 1;
    }
  }

  /** `mapRepoNameToID`: the query it sends, and the IDs or error it returns.
      The GraphQL call itself is the input `reply`. */
  method MapRepoNameToID(org: string, names: seq<string>, quote: string -> string, reply: GraphQLReply)
    returns (query: string, ids: seq<int>, err: Option<Error>)
    requires ReplyUsable(reply, |names|)
    ensures query == QueryText(org, names, quote)
    ensures (ids, err) == LookupOutcome(org, names, reply)
    ensures err.Some? <==> reply.failure.Some?
    ensures err.Some? ==> ids == []
    ensures err.None? ==> |ids| == |names|
    // a NOT_FOUND entry is reported, naming the first such entry's path head
    ensures reply.failure.Some? && reply.failure.value.ErrorResponse?
            && FirstNotFound(reply.failure.value.errors).Some? ==>
              var e := reply.failure.value.errors[FirstNotFound(reply.failure.value.errors).value];
              err == Some(NotFound(org, e.path[0]))
              && Message(err.value) == "could not find " + org + "/" + e.path[0]
    // any other failure is wrapped whole
    ensures reply.failure.Some? && !(reply.failure.value.ErrorResponse?
            && FirstNotFound(reply.failure.value.errors).Some?) ==>
              err == Some(LookupFailed(reply.failure.value))
    // input order is kept for at most 1000 names
    ensures reply.failure.None? && |names| <= 1000 && reply.data.Keys == AliasSet(|names|) ==>
              ids == InOrder(reply.data, |names|)
  {
    query := BuildQuery(org, names, quote);
    if reply.failure.Some? {
      var e := ClassifyFailure(org, reply.failure.value);
      return query, [], Some(e);
    }
    var repoKeys := CollectKeys(reply.data);
    SortStrings(repoKeys);
    StrictlySortedIsSorted(SortedKeys(reply.data.Keys));
    SortedUnique(repoKeys[..], SortedKeys(reply.data.Keys));
    assert forall k :: k in repoKeys[..] ==> k in multiset(reply.data.Keys);
    var result := FillResult(repoKeys, reply.data, |names|);
    ids, err := result[..], None;
    if |names| <= 1000 && reply.data.Keys == AliasSet(|names|) {
      FillInInputOrder(reply.data, |names|);
    }
  }
}
