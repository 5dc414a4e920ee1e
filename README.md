# Equinix SmartView MCP client — a Dafny model

The server exposes Equinix SmartView DCIM endpoints (power, environment,
assets, alerts, streaming subscriptions) as assistant tools. Its logic sits in
`SmartViewClient`. That class holds an OAuth 2.0 access token, a refresh
token and an expiry, and renews them lazily before each API call. It also
normalises query parameters and sends each endpoint wrapper's request to
`base_url + endpoint` with a bearer header. This project models that client:

- `wrappers.dfy` (`Wrappers`): `Option`, `Result`, and Python truthiness and
  `str()` of an optional string.
- `params.dfy` (`Params`): `_clean_params`. The method `CleanParams` is the
  source's loop. It is proved equal to the specification function `Cleaned`,
  and lemmas state exactly which keys and values come out.
- `config.dfy` (`Config`): the start-up configuration check, with the
  environment values as parameters.
- `client.dfy` (`Client`): the class `SmartViewClient` and the request shaping.
  Its token fields are updated in place by `Authenticate`,
  `RefreshAccessToken` and `EnsureValidToken`. Each method is proved against a
  specification function on values (`AuthenticateStep`, `RefreshStep`,
  `EnsureValidStep`), and the lifecycle lemmas are stated about those
  functions. A ghost log `posts` records every POST to the token and refresh
  endpoints.
- `endpoints.dfy` (`Endpoints`): the endpoint wrappers as a table from a call
  to its (method, path, body, query).

Time is an integer number of seconds passed in as `now`. Each POST for tokens
has an input outcome (`Reply`):
- `Granted`: the decoded grant.
- `HttpFailure`: an `httpx.HTTPError`.
- `BadBody`: any other exception while reading the body.

Each API call also has an input outcome (`ApiReply`).

Where the code and the design description of the system disagree, the model
follows the code:
- There is no retry on a 401. Every non-2xx response becomes an error.
- There is no lock around the refresh, and each operation is modelled as running to completion (see "## Left out").
- `refresh_access_token` without a refresh token authenticates instead of
  failing.
- When a refresh fails over HTTP, the client authenticates at once. When that
  fails too, the old tokens are kept; nothing is cleared.
- A refresh whose body cannot be read raises without falling back.
- The stored expiry is `now + token_timeout - 300`. So "a successful
  `ensure_valid_token` leaves at least five minutes of validity" holds only
  when the upstream announces more than 300 seconds
  (`EnsureValidLeavesUnexpiredToken`). `ShortLifetimeIsExpiredAtOnce` shows a
  300-second grant that is stored as already expired.

## Model

| member | source | states |
|---|---|---|
| `Config.Load` | src/equinix_smartview_mcp/server.py:26-36 | configuration succeeds iff the client id and secret are both set and non-empty; an unset API URL defaults to `https://api.equinix.com`; token and refresh endpoints are the base URL plus `/oauth2/v1/token` and `/oauth2/v1/refreshaccesstoken` |
| `Client.SmartViewClient.constructor` | src/equinix_smartview_mcp/server.py:42-48 | a fresh client keeps the given id, secret and base URL and holds no access token, refresh token or expiry |
| `Client.SmartViewClient.Authenticate` | src/equinix_smartview_mcp/server.py:58-78 | one client-credentials POST; succeeds iff the reply is a grant; on success stores the grant's access token, its refresh token or None, and expiry `now + token_timeout - 300` (timeout 3600 when absent); on failure no token field changes; id, secret and base URL never change |
| `Client.SmartViewClient.RefreshAccessToken` | src/equinix_smartview_mcp/server.py:80-102 | follows `RefreshStep`: without a non-empty refresh token it is `Authenticate`; a successful refresh replaces the access token, keeps the old refresh token when the response omits one, and recomputes the expiry |
| `Client.SmartViewClient.EnsureValidToken` | src/equinix_smartview_mcp/server.py:104-109 | follows `EnsureValidStep`: authenticate when the access token is falsy or no expiry is held, refresh when `now >= expiry`, otherwise succeed with no POST and no change |
| `Client.SmartViewClient.Request` | src/equinix_smartview_mcp/server.py:122-141 | runs the token check first; sends nothing and fails when it fails; otherwise sends the method to `base_url + endpoint` with `Bearer <token held after the check>`, the cleaned query (empty when none is given) and the body only when it is non-empty; a 2xx yields the payload, any other status an API error, a transport failure an HTTP error |
| `Client.SmartViewClient.Call` | src/equinix_smartview_mcp/server.py:143-207 | an endpoint wrapper is `request` with the wrapper's route: the same token check; nothing sent and an authentication failure when it fails; otherwise the wrapper's method at `base_url + path`, the bearer header of the token held after the check, the cleaned query, the body when non-empty, and the outcome of the reply |
| `Client.BearerHeader` | src/equinix_smartview_mcp/server.py:128 | the header value reads back, after the `Bearer ` prefix, as the held token's `str()` form (`None` when no token is held) |
| `Client.Received` | src/equinix_smartview_mcp/server.py:136-141 | succeeds iff the status is 2xx, with the payload; otherwise the status and text, or a transport error |
| `Client.FailureKeepsTokens` | src/equinix_smartview_mcp/server.py:60-102 | a failed authenticate, refresh or token check leaves all three token fields as they were |
| `Client.RefreshWithoutRefreshTokenAuthenticates` | src/equinix_smartview_mcp/server.py:82-84 | with no (or an empty) refresh token, refreshing has exactly the outcome, new tokens and POSTs of authenticating |
| `Client.RefreshHttpFailureFallsBack` | src/equinix_smartview_mcp/server.py:101-102 | when the refresh POST fails over HTTP, the result and tokens are those of authenticate, after exactly one refresh POST and one client-credentials POST |
| `Client.EnsureValidPostsBounded` | src/equinix_smartview_mcp/server.py:80-109 | one token check POSTs at most twice: at most one refresh, first, and at most one client-credentials grant, last |
| `Client.EnsureValidLeavesUnexpiredToken` | src/equinix_smartview_mcp/server.py:70-109 | after a successful token check in which every grant announces more than 300 s, an expiry is held and `now < expiry`; if every grant also carries a non-empty access token, such a token is held |
| `Client.EnsureValidSettles` | src/equinix_smartview_mcp/server.py:104-109 | if moreover every grant carries a non-empty access token, a second check at the same instant POSTs nothing and changes nothing, whatever upstream would answer |
| `Client.UsedOnlyWithMargin` | src/equinix_smartview_mcp/server.py:75-76 | a token granted at `issued` with lifetime T is reused without any POST at a later instant exactly while more than 300 s of T remain |
| `Client.ShortLifetimeIsExpiredAtOnce` | src/equinix_smartview_mcp/server.py:75-76 | a grant of exactly 300 s is stored with expiry `now`: the check succeeds yet the next check authenticates again |
| `Client.DefaultLifetime` | src/equinix_smartview_mcp/server.py:74-76 | a grant with no refresh token and no `token_timeout` stores no refresh token and expiry `now + 3300` |
| `Client.EmptyAccessTokenReauthenticates` | src/equinix_smartview_mcp/server.py:106-107 | an empty or null access token is stored as given, and the next check authenticates again |
| `Params.CleanParams` | src/equinix_smartview_mcp/server.py:111-120 | the loop builds exactly `Cleaned(params)`: the kept entries, in insertion order, each normalised |
| `Params.CleanedKeys` | src/equinix_smartview_mcp/server.py:113-120 | the cleaned dict's keys are exactly the input keys whose value is not None, `""` or `[]` |
| `Params.CleanedKeysSubset` | src/equinix_smartview_mcp/server.py:113-120 | cleaning adds no key |
| `Params.CleanedLookup` | src/equinix_smartview_mcp/server.py:114-119 | in a dict, a key maps after cleaning to its normalised value (a list becomes its elements' `str()` forms joined by `,`; anything else is unchanged) when kept, and is absent otherwise |
| `Params.CleanedDistinct` | src/equinix_smartview_mcp/server.py:113-119 | the cleaned dict of a dict has distinct keys |
| `Params.CleanedNoLonger` | src/equinix_smartview_mcp/server.py:114-115 | cleaning never adds entries, and keeps them all iff every value is kept |
| `Params.ListRoundTrip` | src/equinix_smartview_mcp/server.py:116-117 | a list whose elements' `str()` forms hold no comma is recovered by splitting its cleaned value on `,` |
| `Params.NotIdempotent` | src/equinix_smartview_mcp/server.py:115-117 | `[""]` is kept and becomes `""`, which a second cleaning drops: cleaning is not idempotent |
| `Params.JoinedListsCollide` | src/equinix_smartview_mcp/server.py:117 | `["a,b"]` and `["a", "b"]` clean to the same value |
| `Params.SplitJoin` | src/equinix_smartview_mcp/server.py:117 | splitting on `,` inverts joining with `,` for comma-free, non-empty lists of strings |
| `Params.IntToDecimal` | src/equinix_smartview_mcp/server.py:117 | `str()` of an int is the canonical decimal numeral: non-empty, comma-free, with no leading zero (after the `-` of a negative), and denoting the int |
| `Params.DecimalRoundTrip` | src/equinix_smartview_mcp/server.py:117 | the decimal digits of a natural number denote that number |
| `Endpoints.RouteOf` | src/equinix_smartview_mcp/server.py:143-207 | every wrapper targets a path starting with `/` using GET, POST, PUT or DELETE; exactly the POST and PUT wrappers pass a body to `request` (which sends it only when it is non-empty); query dicts belong to GET wrappers and have distinct keys; subscription-id wrappers target `/smartview/v2/streaming/subscriptions/{id}` (plus `/data` for the data call) |
| `Endpoints.UnsetOptionalDropped` | src/equinix_smartview_mcp/server.py:144-204 | an optional wrapper argument left as None has no entry in the query that is sent |
| `Endpoints.RequiredArgumentSent` | src/equinix_smartview_mcp/server.py:144-204 | a non-empty string argument of a wrapper is sent unchanged |

## Left out

- HTTP transport is left out: `httpx`, its 30-second timeout, the async context manager (`__aenter__` authenticating, `__aexit__`) and `close`. Each POST and each API call is an input outcome instead.
- The clock is left out. `datetime.now()` is read separately when checking the expiry and when storing a new one. The model reads one integer `now` per call, so those reads are treated as the same instant.
- Response decoding is left out: JSON decoding and the content-type choice between `json()` and `.text`. The payload is an opaque string.
- The wording of the exceptions raised by the client is left out. Only the kind of failure is modelled. The start-up configuration message is the one exception whose text `Config.Load` does carry.
- `Client.SmartViewClient.Authenticate`: when `int()` rejects `token_timeout`, the source has already assigned the access and refresh tokens before it raises. The model treats such a body as `BadBody` and leaves all token fields unchanged.
- `Client.SmartViewClient.RefreshAccessToken`: the same partial update on an `int()` failure is not modelled.
- `Client.SmartViewClient.Authenticate`, `Client.SmartViewClient.RefreshAccessToken`: `datetime.now() + timedelta(...)` raises OverflowError when the expiry falls outside `datetime`'s range (years 1 to 9999), after the access and refresh tokens were assigned. The model's expiry is an unbounded integer: a grant whose `token_timeout` puts the expiry out of that range is meant to be a `BadBody` reply, and a `Granted` reply is taken to announce a timeout within it.
- `Params.IntToDecimal`: Python's `str()` raises ValueError for an int of more than 4300 digits; the model always returns the numeral.
- Query values are limited to None, bool, int, str and lists of those. Floats and nested lists are not modelled, because Python's `str()` of a nested list is its `repr`.
- A POST or PUT body is passed through unchanged, as an opaque entry list.
- The MCP `Server` instance, the tool registration, the lazily created global client (`get_client`), `load_dotenv` and the reads of the environment are not part of this model. `Config.Load` takes the environment values as parameters.
- `src/equinix_smartview_mcp/__init__.py` holds only version metadata and re-exports, and is not part of this model.
- Retry-on-401 is not modelled because the source has none. Refresh-token lifetime is not modelled because the source does not track it.
- Interleaving of the async coroutines is not modelled. Every `await` in `authenticate`, `refresh_access_token`, `ensure_valid_token` and `request` lets another tool call run, and the source has no lock, but each model operation runs to completion on the state it read on entry. Two consequences are therefore not captured. First, two concurrent calls that both find the token expired both POST a refresh with the same refresh token. Second, the refresh token kept when a refresh reply omits one is read after the POST returns, so it may be one that another call stored meanwhile; the model keeps the one held on entry.
