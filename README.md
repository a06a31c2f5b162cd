# Secret publication and environment tokens of the GitHub CLI, in Dafny

This project models two pieces of the GitHub CLI (`gh`).

**Publishing an Actions secret** (`pkg/cmd/secret/set/http.go`, module `SecretSet`).
`gh secret set` sends an already encrypted value to the REST API as a `SecretPayload`.
A repository secret goes to `repos/<owner>/<repo>/actions/secrets/<name>` on the repository's host.
An organisation secret goes to `orgs/<org>/actions/secrets/<name>`.
When an organisation secret has visibility `selected`, the repository names must first be turned into database IDs.
`mapRepoNameToID` does this with one GraphQL query.
The query holds one sub-query per name, aliased `repo_000`, `repo_001`, and so on.
The reply is an unordered map keyed by alias.
The code sorts the keys as strings and rebuilds the ID list in that order.
The model proves that, for up to 1000 names, this gives the IDs back in input order (`SortedAliases`, `FillInInputOrder`).
It also proves that from 1001 names on it does not: `repo_1000` sorts between `repo_100` and `repo_101` (`AliasOrderFailsAt1000`, `SortedAliasesBeyond1000`).
Even then the IDs sent are the same IDs, only in a different order (`FillIsPermutation`).

The GraphQL and REST calls are not performed.
Each operation returns the calls it issues, in order, as an `Exchange`.
What the server answers is an input: a `GraphQLReply` (the decoded map from alias to a possibly nil `databaseId`, and the returned error) and the REST call's error.
Go's `%q` quoting is an opaque function parameter `quote`.
`json.Marshal` is modelled as `Encode`, which turns the payload into an ordered list of JSON members.
`Decode` reads such a list back the way a JSON decoder fills a struct, and `Encode` is proved against it.
`sort.Strings` is `Strings.SortStrings`, an in-place insertion sort on an `array<string>`.
It is proved to leave the array sorted and a permutation of its input.
A sorted permutation is unique (`Strings.SortedUnique`), so Go's different algorithm yields the same array.
Strings are compared as Go compares them (`Strings.Less`).
Go compares bytes; on valid UTF-8 that is the same order as comparing code points, which is what the model does.

**Tokens from the environment** (`internal/config/from_env.go`, module `EnvConfig`).
`AuthTokenFromEnv` picks a token for a host.
For an enterprise host it reads `GH_ENTERPRISE_TOKEN` and falls back to `GITHUB_ENTERPRISE_TOKEN`.
For any other host it reads `GH_TOKEN` and falls back to `GITHUB_TOKEN`.
`envConfig` wraps a stored configuration.
An environment token shadows the stored `oauth_token`, makes it read-only, and puts the default host into the host list.
The environment is a `map<string, string>` in which an unset variable reads as `""`.
`ghinstance.IsEnterprise` and `ghinstance.Default` are uninterpreted: they are fields of an `Instance` value.
The wrapped configuration is an opaque delegate: its host list and error, and two function values for `GetWithSource` and `CheckWriteable`.

The model follows the code as written:
- each sub-query is aliased `repo_` followed by the index written with at least three digits (`%03d`);
- the secret paths are `repos/<owner>/<repo>/actions/secrets/<name>` and `orgs/<org>/actions/secrets/<name>`;
- when the lookup fails, only the first entry of type `NOT_FOUND` is reported;
- the name in that report is `Path[0]` of the entry, which is the alias (such as `repo_000`), not the repository name;
- the organisation payload carries the visibility from the options, whatever it is;
- an empty list of names is accepted and still sends a query.

`envConfig.Hosts` is modelled as written.
If the wrapped configuration returns a list that already holds the default host together with an error, and a token is set, the default host is listed twice.
The "never duplicated" property is therefore stated, and proved, only for a wrapped list read without error.

## Model

| member | source | states |
|---|---|---|
| `SecretSet.Encode` | pkg/cmd/secret/set/http.go:15-20 | decoding the encoded body gives back the payload; `encrypted_value` and `key_id` are always present; `visibility` is present iff non-empty; `selected_repository_ids` is present iff the list is non-empty |
| `SecretSet.PutSecret` | pkg/cmd/secret/set/http.go:22-30 | exactly one PUT to the given host and path whose body decodes to the payload; the client's error is returned unchanged, and there is an error iff the client returned one |
| `SecretSet.PutRepoSecret` | pkg/cmd/secret/set/http.go:57-64 | one PUT to the repository's host at `repos/<owner>/<repo>/actions/secrets/<name>`; the body holds exactly `encrypted_value` and `key_id`, with empty visibility and no repository IDs; there is an error iff the client returned one, and it is the client's error unchanged |
| `SecretSet.PutOrgSecret` | pkg/cmd/secret/set/http.go:32-55 | the GraphQL lookup is issued first iff the org is named and the visibility is `selected`; a failed lookup returns the wrapped error and issues no PUT; otherwise the last call is one PUT to `orgs/<org>/actions/secrets/<name>` carrying the value, key ID and visibility; repository IDs appear only with visibility `selected`; with at most 1000 names they are in input order |
| `SecretSet.MapRepoNameToID` | pkg/cmd/secret/set/http.go:67-109 | sends the query built from the names; with no error, returns one ID per name from the keys in sorted order, in input order when there are at most 1000 names and the keys are the aliases; the first `NOT_FOUND` entry gives "could not find <org>/<Path[0]>" and no IDs; any other error is wrapped as "failed to look up repositories" with no IDs |
| `SecretSet.BuildQuery` | pkg/cmd/secret/set/http.go:68-77 | the loop builds `query MapRepositoryNames { ... }` from the sub-query of each name, in input order |
| `SecretSet.QueryLayout` | pkg/cmd/secret/set/http.go:68-77 | the sub-query of name `i` appears in the query right after those of names `0..i-1` |
| `SecretSet.ClassifyFailure` | pkg/cmd/secret/set/http.go:85-95 | the error scan returns a not-found error iff the error response has a `NOT_FOUND` entry, naming the first such entry; otherwise the failure is wrapped whole |
| `SecretSet.FirstNotFound` | pkg/cmd/secret/set/http.go:87-91 | the index found has type `NOT_FOUND` and no earlier entry does; when none is found, no entry has that type |
| `SecretSet.CollectKeys` | pkg/cmd/secret/set/http.go:97-100 | the collected keys are exactly the keys of the reply, each once, in any order |
| `SecretSet.FillResult` | pkg/cmd/secret/set/http.go:103-106 | the result has one slot per name; slot `i` holds the ID stored under the `i`-th key, and slots past the keys stay 0 |
| `SecretSet.FillInInputOrder` | pkg/cmd/secret/set/http.go:97-106 | for at most 1000 names whose reply keys are exactly the aliases, the rebuilt result holds at index `i` the ID stored under `alias(i)` |
| `SecretSet.IdsPermutation` | pkg/cmd/secret/set/http.go:97-106 | listing the same keys in two orders gives the same IDs, each as often, in the two orders |
| `SecretSet.FillSortedPermutation` | pkg/cmd/secret/set/http.go:97-106 | the result rebuilt from the sorted keys holds one slot per key and is a permutation of the IDs listed in any other order of the keys |
| `SecretSet.FillIsPermutation` | pkg/cmd/secret/set/http.go:97-106 | for any number of names whose reply keys are exactly the aliases, the rebuilt result is a permutation of the IDs in input order |
| `SecretSet.AliasRoundTrip` | pkg/cmd/secret/set/http.go:71 | an alias is `repo_` followed by digits that read back as the index, exactly three of them iff the index is below 1000; so distinct indices get distinct aliases |
| `SecretSet.ThreeDigits` | pkg/cmd/secret/set/http.go:71 | below 1000, `%03d` gives the hundreds, tens and units digits |
| `SecretSet.AliasOrder` | pkg/cmd/secret/set/http.go:69-74 | for `i < j < 1000`, `alias(i)` sorts strictly before `alias(j)` |
| `SecretSet.AliasOrderFailsAt1000` | pkg/cmd/secret/set/http.go:71 | `repo_1000` sorts before `repo_101`: the ordering argument needs at most 1000 names |
| `SecretSet.SortedAliases` | pkg/cmd/secret/set/http.go:97-101 | sorting the aliases of at most 1000 names gives them back in input order |
| `SecretSet.SortedAliasesBeyond1000` | pkg/cmd/secret/set/http.go:97-101 | with more than 1000 names, the sorted aliases are not in input order |
| `Strings.SortStrings` | pkg/cmd/secret/set/http.go:101 | `sort.Strings` leaves the array sorted and a permutation of what it held |
| `Strings.SortedUnique` | pkg/cmd/secret/set/http.go:101 | two sorted sequences with the same elements are equal, so the result of the sort does not depend on the order the keys were collected in |
| `Strings.SortedKeys` | pkg/cmd/secret/set/http.go:97-101 | the sorted listing of a key set is strictly ascending and holds exactly those keys |
| `Strings.SortedKeysUnique` | pkg/cmd/secret/set/http.go:97-101 | a strictly ascending listing of exactly the keys is the sorted listing |
| `Strings.LessTotal` | pkg/cmd/secret/set/http.go:101 | Go's string order is total: distinct strings are ordered one way or the other |
| `Strings.LessTransitive` | pkg/cmd/secret/set/http.go:101 | Go's string order is transitive |
| `Strings.LessPrefix` | pkg/cmd/secret/set/http.go:71 | a common prefix such as `repo_` does not change the order |
| `EnvConfig.AuthTokenFromEnv` | internal/config/from_env.go:66-80 | the variable returned is one of the two for the host's class; the token is that variable's value; the `GH_*` variable is chosen iff it is non-empty; the token is empty iff both variables are |
| `EnvConfig.AuthTokenReadsOwnClassOnly` | internal/config/from_env.go:66-80 | only the two variables of the host's class are consulted: environments that agree on them give the same answer |
| `EnvConfig.AuthTokenProvidedFromEnv` | internal/config/from_env.go:82-87 | true iff at least one of the four token variables is non-empty |
| `EnvConfig.ProvidedCoversEveryHost` | internal/config/from_env.go:66-87 | whenever some host gets a token from the environment, a token is reported as provided; when none is provided, every host's token is empty |
| `EnvConfig.Hosts` | internal/config/from_env.go:25-39 | with a default-host token and a wrapped list that errored or lacks the default, the result is the default followed by the list, with no error; otherwise the list and error are unchanged; for a list read without error, the default host is added only where it was missing |
| `EnvConfig.GetWithSource` | internal/config/from_env.go:46-54 | for a named host, key `oauth_token` and a non-empty env token, returns that token, the variable it came from, and no error; every other lookup is the wrapped configuration's answer |
| `EnvConfig.Get` | internal/config/from_env.go:41-44 | returns the same value and error as `GetWithSource`, without the source |
| `EnvConfig.CheckWriteable` | internal/config/from_env.go:56-64 | for a named host, key `oauth_token` and a non-empty env token, refuses with an error naming a set variable; otherwise returns exactly the wrapped configuration's result |
| `EnvConfig.WriteRefusedWhereReadShadowed` | internal/config/from_env.go:46-64 | a write is refused on account of the environment exactly when the read is answered from it, and the refusal names the variable the read came from |
| `EnvConfig.OtherKeysIgnoreEnvironment` | internal/config/from_env.go:46-64 | lookups and write checks of other keys, or with no host name, do not depend on the environment |

## Left out

- The failure branch of `putSecret` (pkg/cmd/secret/set/http.go:23-26) is not modelled. `json.Marshal` cannot fail on a struct of strings and an int slice, so `Encode` is total and no "failed to serialize" path exists in the model.
- Byte-exact JSON and the exact query whitespace matter only as text: the body is a list of members, not bytes.
- Go's `%q` quoting of the owner and name is an opaque function parameter.
- The text that `*api.GraphQLErrorResponse` and other client errors give from `Error()` is an input field (`text`).
- The network calls (`client.GraphQL`, `client.REST`) are not performed: the calls are recorded and the answers are inputs.
- Inputs on which the Go code would panic are excluded by the precondition `ReplyUsable`. These are a nil entry in the reply, more keys than names, and a `NOT_FOUND` entry with an empty `Path`. A nil public key is not modelled either.
- `Strings.SortStrings` is an insertion sort, not Go's own algorithm. Both leave the same array, by `Strings.SortedUnique`.
- `ghinstance.IsEnterprise` and `ghinstance.Default` are uninterpreted, so no property relies on which hosts are enterprise hosts.
- The wrapped `Config`'s other methods, and how it stores data, are not part of this model.
- `InheritEnv` only wraps its argument and has no contract.
- The secret's encryption and the retrieval of the public key happen elsewhere: the encrypted value and the key ID are inputs.
