# Vault detail editing rules of the Opyn v2 portal

This project models, in Dafny, the vault-editing core of the portal's vault
detail screen (`src/pages/VaultDetail/index.tsx`) together with the
per-network token table and lookups it relies on (`src/constants/addresses.ts`).

The screen lets the vault owner or an operator stage vault actions on a
controller, then send them in one Operate transaction. The actions are
add/remove collateral, add/remove long oTokens, and mint/burn short oTokens.
An expired vault can only be settled. The model has four parts:

- `ArrayOps` (`array_ops.dfy`): the JavaScript `findIndex`, `find` and
  `filter` the code uses, with contracts. It also proves that filtering
  preserves order across concatenation and that two filters fuse into one.
- `Addresses` (`addresses.dfy`): the networks (mainnet "1", Kovan "42"),
  the token lists and `ZeroAddr`, the native-ether entry `Eth`, the known
  operators, the oToken blacklist, and the lookups `GetUSDC`, `GetWeth` and
  `GetPayableProxyAddr`.
- `VaultDetail` (`vault_detail.dfy`): the screen's derivations, as pure
  functions over a read-only vault snapshot. These cover authorization,
  expiry, the long/short token in effect, and the collateral index lookup.
  They also cover the dropdown list of compatible oTokens, the mapping
  between a dropdown index and a token, and the header button and row
  controls.
- `VaultDetailState` (`vault_detail_state.dfy`): the class `VaultDetailView`.
  Its fields are the screen's state cells: the three amount inputs, the
  collateral index, the long/short selections, the vault expiry, the
  `isSendingTx` flag, and the staged `actions`. Its methods are the event
  handlers: amount inputs, dropdown changes, the expiry/collateral sync, the
  six push handlers (as `PushCollateral` and `PushOToken`), and the
  Operate click, its completion callback, and Settle. `Valid()` keeps the
  collateral index in `[-1, |tokens|)`. It also requires every staged action
  to name the user's own vault numbered `vaultId`, with the user as owner and
  counterparty. That is the displayed vault only when the user is the route
  owner.

Modelling choices:

- Addresses are strings, and a token has a single address field, `id`.
  The screen reads `token.address` on table entries whose field is `id`;
  the model does not reproduce that mismatch.
- Expiry timestamps are whole seconds (`nat`). The subgraph's decimal
  strings are assumed canonical, so string equality is numeric equality.
  `vaultExpiry == 0` stands for the source's `'0'` ("any expiry").
- The current time is an integer parameter in milliseconds. `IsExpired`
  compares `expiry < now / 1000` as the code does, but over exact reals
  where the code uses floating-point numbers. Its contract restates this as
  `expiry * 1000 < nowMs`. The comparison is strict, so a token expiring
  exactly now is not expired.
- The collateral token the screen resolves from the collateral address
  (`useTokenByAddress`) is taken to carry that same address. When there is
  no collateral address to read, the render throws; `CollateralAddress`
  returns `Failure(TypeError)` then, and the handlers that need the
  collateral require the render to have succeeded.
- The user-typed amounts are exact decimals (`real`). The decimal-to-base-unit
  scaling (`fromTokenAmount`) is a parameter `scale: (real, nat) -> int`.
- The vault and the live oToken list arrive from the subgraph. They are
  method parameters (`Option` where the code may see `null`).

## Model

| member | source | states |
|---|---|---|
| ArrayOps.FindIndex | src/pages/VaultDetail/index.tsx:72 | result is -1 exactly when no element satisfies the predicate; otherwise the first satisfying position |
| ArrayOps.Find | src/constants/addresses.ts:137 | None exactly when no element satisfies the predicate; otherwise the first satisfying element |
| ArrayOps.Filter | src/pages/VaultDetail/index.tsx:87-89 | the result keeps every satisfying element, and only elements of the input that satisfy the predicate |
| ArrayOps.FilterConcat | src/pages/VaultDetail/index.tsx:87-89 | filtering distributes over concatenation, so the relative order of kept elements is preserved |
| ArrayOps.FilterFilter | src/pages/VaultDetail/index.tsx:85-92 | a filter after a filter equals one filter by the conjunction |
| Addresses.GetUSDC | src/constants/addresses.ts:136-138 | the first USDC entry of the network's list when there is one, otherwise `Eth` |
| Addresses.GetWeth | src/constants/addresses.ts:140-142 | the first WETH entry; None (the unchecked cast's undefined) exactly when the list has none |
| Addresses.GetPayableProxyAddr | src/constants/addresses.ts:144-146 | the first known operator named PayableProxy; None exactly when there is none |
| Addresses.EthHeadsEveryList | src/constants/addresses.ts:9-35 | `Eth` has id `ZeroAddr` and 18 decimals and heads every network's token list |
| Addresses.TokensDistinct | src/constants/addresses.ts:18-57 | within a network's list, symbols are pairwise distinct and so are ids |
| Addresses.ZeroAddrOnlyAtHead | src/constants/addresses.ts:18-57 | no entry but the head carries the zero address |
| Addresses.UsdcAlwaysListed | src/constants/addresses.ts:18-57 | every network lists USDC (6 decimals), so `GetUSDC` never falls back to `Eth` |
| Addresses.WethAlwaysDefined | src/constants/addresses.ts:140-142 | the WETH lookup is defined on every supported network and yields the 18-decimal entry |
| Addresses.PayableProxyUnique | src/constants/addresses.ts:108-129 | each network, public or not, lists exactly one operator, named PayableProxy, and the lookup returns it |
| Addresses.BlacklistIsZeroAddr | src/constants/addresses.ts:95-98 | every network's oToken blacklist is exactly `[ZeroAddr]` |
| VaultDetail.IsAuthorized | src/pages/VaultDetail/index.tsx:55-59 | false without a snapshot, even when owner equals user; otherwise true iff owner equals user or user is among the operator ids |
| VaultDetail.IsExpired | src/pages/VaultDetail/index.tsx:144-154 | false without a snapshot; otherwise true iff the bound short or bound long token has `expiry * 1000 < nowMs` |
| VaultDetail.ExpiryBoundary | src/pages/VaultDetail/index.tsx:147-150 | a vault whose short token expires at second T is not expired at T*1000 ms and is expired one millisecond later |
| VaultDetail.Effective | src/pages/VaultDetail/index.tsx:63-67 | the vault-bound token when present, else the user's selection; None only when both are absent |
| VaultDetail.BoundRecheckAgrees | src/pages/VaultDetail/index.tsx:104-142 | the push handlers' explicit re-check of the vault-bound token always names the token in effect |
| VaultDetail.CollateralIndexOf | src/pages/VaultDetail/index.tsx:72-77 | a position in the network's list holding that address, or -1 exactly when no entry has it |
| VaultDetail.CollateralIndexRoundTrip | src/pages/VaultDetail/index.tsx:72-77 | looking up the address of entry i yields i |
| VaultDetail.ZeroAddrIndex | src/pages/VaultDetail/index.tsx:72 | the zero address resolves to index 0, native ether |
| VaultDetail.CollateralAddress | src/pages/VaultDetail/index.tsx:61 | the vault's collateral asset when bound; else the selected entry's address, and a thrown TypeError exactly when the index is outside the table |
| VaultDetail.SyncedIndexResolvesCollateral | src/pages/VaultDetail/index.tsx:61-77 | an index synced from a listed collateral resolves back to that collateral address |
| VaultDetail.UnlistedCollateralThrows | src/pages/VaultDetail/index.tsx:61-77 | after a sync from a token whose collateral is not listed, a vault without a collateral asset makes the render throw |
| VaultDetail.TokensInSelection | src/pages/VaultDetail/index.tsx:85-92 | empty without an oToken list; otherwise holds every compatible oToken and only compatible oTokens (collateral matches or is the zero address, expiry matches or is 0) |
| VaultDetail.TokensInSelectionIsOneFilter | src/pages/VaultDetail/index.tsx:85-92 | the dropdown list is exactly the order-preserving filter of the live oTokens by compatibility |
| VaultDetail.TokensInSelectionConcat | src/pages/VaultDetail/index.tsx:85-92 | the list of a concatenation is the concatenation of the lists (order preserved) |
| VaultDetail.WildcardOffersAll | src/pages/VaultDetail/index.tsx:87-89 | with the zero address and expiry 0 every live oToken is offered, in order |
| VaultDetail.MismatchesExcluded | src/pages/VaultDetail/index.tsx:87-89 | with collateral C and expiry E resolved, of three candidates only the one matching both is offered |
| VaultDetail.SyncedTokenIsOffered | src/pages/VaultDetail/index.tsx:69-92 | a live token whose expiry was synced and whose collateral matches is offered and highlighted |
| VaultDetail.SelectedIndex | src/pages/VaultDetail/index.tsx:236 | -1 without a token in effect or when no entry has its id; otherwise the first position holding its id |
| VaultDetail.OnChangeSelection | src/pages/VaultDetail/index.tsx:237-240 | nothing for -1 or an index outside the list; otherwise exactly that entry |
| VaultDetail.PickThenHighlight | src/pages/VaultDetail/index.tsx:236-240 | picking entry i highlights the first entry with its id, at or before i, and exactly i when ids are distinct |
| VaultDetail.HighlightThenPick | src/pages/VaultDetail/index.tsx:255-259 | picking the highlighted index selects a token with the id of the one in effect |
| VaultDetail.SelectionIsCompatible | src/pages/VaultDetail/index.tsx:237-241 | any token a long/short dropdown selects matches the resolved collateral and expiry |
| VaultDetail.PrimaryButtonFor | src/pages/VaultDetail/index.tsx:189-200 | Settle exactly when expired; otherwise Operate, enabled iff actions are staged and no transaction is in flight, with a spinner while sending |
| VaultDetail.RowControlsFor | src/pages/VaultDetail/index.tsx:174-176 | amount inputs and Add/Remove buttons are enabled iff the vault is not expired |
| VaultDetail.ExpiredLocksEditing | src/pages/VaultDetail/index.tsx:174-200 | an expired vault shows Settle, cannot Operate, and has every row locked |
| VaultDetailState.VaultDetailView.constructor | src/pages/VaultDetail/index.tsx:21-33 | initial state: expiry 0, not sending, amounts 0, collateral index 0, no selections, nothing staged |
| VaultDetailState.VaultDetailView.OnAmountInput | src/pages/VaultDetail/index.tsx:215-217 | the row's amount becomes the typed value, or 0 for a cleared field; other rows unchanged |
| VaultDetailState.VaultDetailView.OnCollateralDropdownChange | src/pages/VaultDetail/index.tsx:220-221 | the collateral index becomes the picked table position |
| VaultDetailState.VaultDetailView.OnTokenDropdownChange | src/pages/VaultDetail/index.tsx:237-240 | the side's selection becomes the picked entry of `TokensInSelection` for the render-time collateral and synced expiry (so it is compatible with both), or nothing; the other side is unchanged |
| VaultDetailState.VaultDetailView.SyncExpiryAndCollateral | src/pages/VaultDetail/index.tsx:69-82 | short token in effect decides expiry and collateral index, else the long one; with neither, expiry becomes 0 and the index is kept; the index may be -1 |
| VaultDetailState.VaultDetailView.PushCollateral | src/pages/VaultDetail/index.tsx:94-102 | always appends exactly one collateral action on the render-time collateral address, amount scaled at that token's decimals, and resets the amount to 0 |
| VaultDetailState.VaultDetailView.PushOToken | src/pages/VaultDetail/index.tsx:104-142 | without a token in effect: a notice, nothing staged, amount kept; otherwise exactly one action on the token in effect, scaled at 8 decimals, and that row's amount reset to 0 |
| VaultDetailState.VaultDetailView.ClickOperate | src/pages/VaultDetail/index.tsx:192-199 | when Operate is enabled the flag goes up and the staged actions are handed over; otherwise a no-op that changes nothing |
| VaultDetailState.VaultDetailView.OperateCompleted | src/pages/VaultDetail/index.tsx:196-198 | the completion callback clears the in-flight flag; when it was already clear nothing changes |
| VaultDetailState.VaultDetailView.ClickSettle | src/pages/VaultDetail/index.tsx:156-158 | settles the user's own vault numbered `vaultId` (the displayed one only when the user is the route owner), and only when the memoized expiry flag is set |
| VaultDetailState.VaultDetailView.OperatorStagesOnOwnVault | src/pages/VaultDetail/index.tsx:94-158 | when the user is not the route owner, no staged action names the route owner, even when the user is an operator and the vault is labelled "My vault" |

## Left out

- The controller (`utils/contracts/controller`) is not part of this model.
  That covers how actions are encoded, what `operateCache` does with the
  staged list, and the on-chain `simpleSettle`.
- VaultDetailState.VaultDetailView.ClickOperate: says nothing about
  `actions` after an enabled click beyond `Valid()`. The screen rebuilds
  its controller whenever `isSendingTx` changes (src/pages/VaultDetail/index.tsx:53),
  and the new controller's list is not visible.
- VaultDetailState.VaultDetailView.OperateCompleted: says nothing about
  `actions` after it lowers a raised flag beyond `Valid()`, for the same
  reason.
- Staged actions and the settle call pass the user, not the route owner,
  as the vault owner (src/pages/VaultDetail/index.tsx:95-157). An operator
  viewing another owner's vault therefore stages actions on the operator's
  own vault with the same number. The model reproduces this and does not
  say whether the owner was meant.
- VaultDetail.CollateralAddress: reproduces the crash of the render as
  `Failure(TypeError)`. The model does not say what the screen does after
  the crash, or what it should do instead.
- `isExpired` is a memo keyed only on the vault snapshot, so its "now" is
  the moment the snapshot last changed. A vault that expires while the
  page stays open is not flagged until the snapshot changes. The model
  takes "now" as a parameter of `IsExpired` and does not capture this.
- Floating-point rounding of `Date.now() / 1000` is not modelled.
- Decimal scaling (`fromTokenAmount`, `toTokenAmount`, BigNumber) is a
  parameter of the push methods, not decimal arithmetic. Parsing the typed
  text is not modelled: an input is a number, or None for a cleared field.
- Wall-clock time is a parameter. Subgraph fetches (`getVault`,
  `getLiveOTokens`), `useAsyncMemo` re-render behaviour, toasts (modelled
  only as a returned notice), `useTokenByAddress` (the collateral token
  arrives resolved), history and all rendering are left out.
- The order in which React runs the sync effect after a selection change is
  not modelled. The caller invokes `SyncExpiryAndCollateral` explicitly.
- Vault amounts (`collateralAmount`, `longAmount`, `shortAmount`) are only
  rendered, so the snapshot omits them.
- Unsupported network ids are not modelled: `Network` has only mainnet and
  Kovan. The `addresses` contract map and `zx_exchange` are configuration
  with no behaviour. The public-deployment flag appears only as the
  `isPublic` parameter of `KnownOperators`.
- VaultDetailState.VaultDetailView.OnCollateralDropdownChange: requires a
  table index. The dropdown only reports positions of its own items.
