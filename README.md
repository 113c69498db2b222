# Branded-token registration: coordinator and input validators

This project models two parts of the OpenST platform in Dafny.

- **The branded-token registration processor** (`RegisterBrandedToken` in
  `register_branded_token.dfy`). An inter-chain communicator listens for the
  `ProposedBrandedToken` event of the openSTUtility contract. Once the event
  has matured, its processor registers the branded token in two steps:
  1. `registerBrandedToken` on the utility registrar. This step is accepted
     only when the response is a success and the formatted receipt holds
     `RegisteredBrandedToken`.
  2. `registerUtilityToken` on the value registrar. This step is accepted
     only when the response is a success and the receipt holds
     `UtilityTokenRegistered`.

  Any failure rejects the run at once. Step one is never undone.
  `Processor` is a method that records each remote invocation in a call
  trace before it branches on the response. Its contract states:
  - the order of the steps;
  - the arguments each step passes;
  - which failure each response leads to;
  - that the run resolves, with step two's response, exactly when both
    steps are confirmed.
- **The basic helper's validators** (`BasicHelper` in `basic_helper.dfy`):
  address, uuid and transaction-hash formats, branded-token name and
  symbol, and conversion rate. Each regular-expression test is modelled by
  a small matcher:
  - `HexRun` for the anchored `[0-9a-fA-F]{n}$`;
  - `ContainsMatch` for the unanchored one-character patterns.

  Each matcher's contract is the position-by-position meaning of its
  pattern. Every validator's contract states exactly which strings it
  accepts.

The collaborators whose code is outside this model enter the processor as
parameters:
- `remote` maps a call to the response the contract-interact layer resolves
  with.
- `formatter` maps a receipt to the set of event names that
  `web3EventsFormatter.perform` reports.

Addresses, passphrases, contract addresses and the utility chain id come
from configuration and are opaque values in `Config`.

## Model

| member | source | states |
|---|---|---|
| `RegisterBrandedToken.Processor` | executables/inter_comm/register_branded_token.js:138-214 | The first call is always `registerBrandedToken` on the utility registrar. It gets the utility registrar's address and passphrase, the openSTUtility address, then symbol, name, conversionRate, requester, token and uuid exactly as in the event's returnValues. A non-success response rejects as FailedStep1NotSuccess. A success whose formatted events lack `RegisteredBrandedToken` rejects as FailedStep1NoEvent. Both of these make exactly one call. A second call happens if and only if step one is confirmed. It is `registerUtilityToken` on the value registrar with the value registrar's credentials, the openSTValue address, symbol, name, conversionRate, the configured utilityChainId, requester and uuid, and no token. Step two's failures reject as FailedStep2NotSuccess or FailedStep2NoEvent. There are never more than two calls, so nothing compensates step one. The run resolves if and only if both steps are confirmed, and it resolves with step two's response. |
| `RegisterBrandedToken.RejectionMessage` | executables/inter_comm/register_branded_token.js:171-209 | Each failure outcome maps to the string the processor rejects with. A failed call's message begins with the registrar method that failed; a missing event's message begins with the name of that event. |
| `RegisterBrandedToken.RejectionMessagesDistinct` | executables/inter_comm/register_branded_token.js:171-209 | The four rejection messages are pairwise different, so a rejection identifies its failure point. |
| `BasicHelper.HexRun` | helpers/basic_helper.js:35 | The pattern tail `[0-9a-fA-F]{n}$` matches `s` if and only if `s` has exactly n characters, all hex digits of either case. |
| `BasicHelper.PrefixedHex` | helpers/basic_helper.js:49 | `^0x[0-9a-fA-F]{n}$` matches `s` if and only if `s` has length n + 2, begins with `0` and lower-case `x`, and every later character is a hex digit. |
| `BasicHelper.ContainsMatch` | helpers/basic_helper.js:102 | An unanchored one-character test succeeds if and only if some position of the string holds a character of the class. |
| `BasicHelper.IsAddressValid` | helpers/basic_helper.js:31-36 | Accepts exactly the strings of length 42 that start with `0x` and continue with 40 hex digits. Non-strings are refused. |
| `BasicHelper.IsUuidValid` | helpers/basic_helper.js:45-50 | Accepts exactly the strings of length 66 that start with `0x` and continue with 64 hex digits. Non-strings are refused. |
| `BasicHelper.IsTxHashValid` | helpers/basic_helper.js:59-64 | Accepts exactly the strings of length 66 that start with `0x` and continue with 64 hex digits. Non-strings are refused. |
| `BasicHelper.IsBTNameValid` | helpers/basic_helper.js:98-103 | Accepts a string if and only if at least one of its characters, anywhere, is an ASCII letter, an ASCII digit or a JavaScript whitespace character. Non-strings are refused. |
| `BasicHelper.IsBTSymbolValid` | helpers/basic_helper.js:112-117 | Accepts a string if and only if at least one of its characters, anywhere, is an ASCII letter or digit. Non-strings are refused. |
| `BasicHelper.IsBTConversionRateValid` | helpers/basic_helper.js:126-131 | An integer rate is valid if and only if it is at least 1. |
| `BasicHelper.TxHashAcceptsExactlyUuids` | helpers/basic_helper.js:45-64 | `isTxHashValid` and `isUuidValid` accept exactly the same arguments. |
| `BasicHelper.AddressAndUuidDisjoint` | helpers/basic_helper.js:31-50 | No argument is both a valid address and a valid uuid. |
| `BasicHelper.UpperCasePrefixRefused` | helpers/basic_helper.js:35-49 | A string whose second character is an upper-case `X` is neither a valid address nor a valid uuid. |
| `BasicHelper.SymbolValidImpliesNameValid` | helpers/basic_helper.js:98-117 | Every valid symbol is also a valid name. |
| `BasicHelper.WhitespaceNameIsNotASymbol` | helpers/basic_helper.js:98-117 | The converse fails: a single space is a valid name but not a valid symbol. |
| `BasicHelper.NameCheckIsUnanchored` | helpers/basic_helper.js:102 | One acceptable character anywhere makes the whole string a valid name, whatever characters surround it. |

## Left out

- The delayed-confirmation queue manager (`lib/web3/events/queue_manager`) is not part of this model. It delays, deduplicates and dispatches events. `onEvent` only forwards an event to it, so `onEvent` is left out too.
- The event subscription is I/O plumbing and is left out: `init`, `bindEvents`, `listenToDesiredEvent`, `onEventSubscriptionError`, the WebSocket provider and its `error`/`data`/`changed` handlers.
- The contract-interact classes and `web3EventsFormatter.perform` are foreign code. They are the `remote` and `formatter` parameters. A promise rejected by one of them would reject the processor with that collaborator's own reason. The model assumes they resolve.
- The source tests `formattedEvents[name]` for truthiness. The model's `formatter` returns the names whose entries are present and truthy, so a present but falsy entry counts as missing, as in the source.
- Logging and the loading of addresses, passphrases and the chain id are left out. The configured values are opaque fields of `Config`.
- An event whose returnValues lack a field would pass `undefined` to the registrars. The model's event always carries all six fields.
- The Promise machinery is left out. Only the sequential order of the awaited calls is modelled.
- `isNonZeroWeiValid`, `formatWeiToString` and `convertToBigNumber` are left out. They wrap the `bignumber.js` library, which is not part of this model, and JavaScript's floating-point `Number()` coercion.
- BasicHelper.IsBTConversionRateValid: only integer arguments are modelled. Coercion of strings, fractions and NaN by `isNaN`, `%` and `parseInt` is left out.
- BasicHelper.IsBTNameValid: `\s` is the ECMAScript WhiteSpace and LineTerminator set of current engines. That set is U+0009 to U+000D, U+0020, U+00A0, U+1680, U+2000 to U+200A, U+2028, U+2029, U+202F, U+205F, U+3000 and U+FEFF. Older engines that also counted U+180E are not modelled.
- JavaScript strings are sequences of UTF-16 code units. The model's strings are sequences of Unicode scalar values, so the model covers only well-formed strings. A JavaScript string that holds a lone surrogate has no counterpart in the model. The source still answers for such strings: each validator's answer on them depends only on their ASCII and whitespace code units. For example, `isBTNameValid("a\uD800")` is true.
