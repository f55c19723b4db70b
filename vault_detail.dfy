/**
 * The derivation rules of the vault detail screen: who may call the vault
 * theirs, whether it has expired, which long/short oToken is in effect, how
 * expiry and collateral are synced from it, which oTokens the dropdowns offer,
 * and how a dropdown index maps to a token and back. The rules read a
 * read-only vault snapshot fetched from the subgraph.
 */
module VaultDetail {
  import opened Wrappers
  import opened ArrayOps
  import opened Addresses

  /** An oToken as listed by the subgraph; its expiry is in whole seconds. */
  datatype OToken = OToken(id: Address, symbol: string, collateralAsset: Address, expiryTimestamp: nat)

  /**
   * The vault fields the rules read: the ids of the owner's operators and the
   * assets bound to the vault, each possibly absent.
   */
  datatype VaultSnapshot = VaultSnapshot(
    operators: seq<Address>,
    collateralAsset: Option<Address>,
    longOToken: Option<OToken>,
    shortOToken: Option<OToken>)

  datatype Side = Long | Short

  /** The six vault actions the screen can stage. */
  datatype ActionKind = AddCollateral | RemoveCollateral | AddLong | RemoveLong | Mint | Burn

  datatype Direction = Add | Remove

  /** A staged action: kind, owner, vault id, the account on the other end, the asset and the scaled amount. */
  datatype Action = Action(kind: ActionKind, owner: Address, vaultId: string, counterparty: Address, asset: Address, amount: int)

  function CollateralKind(dir: Direction): ActionKind
  {
    match dir
    case Add => AddCollateral
    case Remove => RemoveCollateral
  }

  /** Adding a short position mints, removing it burns. */
  function OTokenKind(side: Side, dir: Direction): ActionKind
  {
    match (side, dir)
    case (Long, Add) => AddLong
    case (Long, Remove) => RemoveLong
    case (Short, Add) => Mint
    case (Short, Remove) => Burn
  }

  /** oToken amounts are always scaled at 8 decimals. */
  const OTokenDecimals: nat := 8

  // ---------------------------------------------------------------------------
  // Authorization

  /** "My vault": the route owner is the user, or the user is one of the owner's operators; never without a snapshot. */
  function IsAuthorized(vault: Option<VaultSnapshot>, owner: Address, user: Address): (r: bool)
    ensures vault.None? ==> !r
    ensures vault.Some? ==> (r <==> owner == user || exists i :: 0 <= i < |vault.value.operators| && vault.value.operators[i] == user)
  {
    if vault.None? then false
    else if owner == user then true
    else user in vault.value.operators
  }

  // ---------------------------------------------------------------------------
  // Expiry

  /** The token is present and its expiry (seconds) lies strictly before `nowMs` (milliseconds). */
  predicate ExpiredBefore(t: Option<OToken>, nowMs: int)
  {
    t.Some? && t.value.expiryTimestamp * 1000 < nowMs
  }

  /**
   * A vault is expired when its bound short or bound long oToken expired
   * strictly before now; the comparison is made against `now / 1000` as the
   * screen does.
   */
  function IsExpired(vault: Option<VaultSnapshot>, nowMs: int): (r: bool)
    ensures r <==> vault.Some? && (ExpiredBefore(vault.value.shortOToken, nowMs) || ExpiredBefore(vault.value.longOToken, nowMs))
  {
    if vault.None? then false
    else if vault.value.shortOToken.Some? && (vault.value.shortOToken.value.expiryTimestamp as real) < (nowMs as real) / 1000.0 then true
    else if vault.value.longOToken.Some? && (vault.value.longOToken.value.expiryTimestamp as real) < (nowMs as real) / 1000.0 then true
    else false
  }

  /** A token expiring at second `t` has not expired at exactly `t`, and has one millisecond later. */
  lemma ExpiryBoundary(v: VaultSnapshot, t: nat)
    requires v.shortOToken.Some? && v.shortOToken.value.expiryTimestamp == t
    requires v.longOToken.None?
    ensures !IsExpired(Some(v), t * 1000)
    ensures IsExpired(Some(v), t * 1000 + 1)
  {
  }

  // ---------------------------------------------------------------------------
  // Tokens in effect

  /** The oToken bound to the vault on one side, if there is a snapshot and it has one. */
  function Bound(vault: Option<VaultSnapshot>, side: Side): Option<OToken>
  {
    if vault.None? then None
    else match side
      case Long => vault.value.longOToken
      case Short => vault.value.shortOToken
  }

  /** The oToken in effect on one side: the vault-bound one beats the user's selection. */
  function Effective(side: Side, vault: Option<VaultSnapshot>, selected: Option<OToken>): (r: Option<OToken>)
    ensures r.Some? <==> Bound(vault, side).Some? || selected.Some?
    ensures Bound(vault, side).Some? ==> r == Bound(vault, side)
    ensures Bound(vault, side).None? ==> r == selected
  {
    match Bound(vault, side)
    case Some(t) => Some(t)
    case None => selected
  }

  /**
   * The push handlers name the oToken by re-checking the vault-bound one
   * before falling back to the token in effect; the two choices always agree.
   */
  lemma BoundRecheckAgrees(side: Side, vault: Option<VaultSnapshot>, selected: Option<OToken>)
    requires Effective(side, vault, selected).Some?
    ensures (if Bound(vault, side).Some? then Bound(vault, side).value.id else Effective(side, vault, selected).value.id)
      == Effective(side, vault, selected).value.id
  {
  }

  // ---------------------------------------------------------------------------
  // Collateral

  /** The position of the token with address `addr` in the network's list, or -1. */
  function CollateralIndexOf(n: Network, addr: Address): (r: int)
    ensures -1 <= r < |Tokens(n)|
    ensures r == -1 <==> forall i :: 0 <= i < |Tokens(n)| ==> Tokens(n)[i].id != addr
    ensures 0 <= r ==> Tokens(n)[r].id == addr
  {
    FindIndex(Tokens(n), (t: Token) => t.id == addr)
  }

  /** Looking up a listed token's address gives back its position. */
  lemma CollateralIndexRoundTrip(n: Network, i: int)
    requires 0 <= i < |Tokens(n)|
    ensures CollateralIndexOf(n, Tokens(n)[i].id) == i
  {
  }

  /** The zero address resolves to the head of every list (native ether). */
  lemma ZeroAddrIndex(n: Network)
    ensures CollateralIndexOf(n, ZeroAddr) == 0
  {
  }

  /** What goes wrong while the screen renders: a property read on `undefined` throws. */
  datatype RenderError = TypeError

  /**
   * The collateral address the screen works with: the vault's collateral asset
   * when it has one, otherwise the address of the selected table entry. An
   * index outside the table (the -1 a failed sync leaves) selects no entry,
   * and reading the address of that missing entry throws during render.
   */
  function CollateralAddress(vault: Option<VaultSnapshot>, n: Network, index: int): (r: Result<Address, RenderError>)
    ensures vault.Some? && vault.value.collateralAsset.Some? ==> r == Success(vault.value.collateralAsset.value)
    ensures (vault.None? || vault.value.collateralAsset.None?) ==>
      (r.Success? <==> 0 <= index < |Tokens(n)|) && (r.Success? ==> r.value == Tokens(n)[index].id)
  {
    if vault.Some? && vault.value.collateralAsset.Some? then Success(vault.value.collateralAsset.value)
    else if 0 <= index < |Tokens(n)| then Success(Tokens(n)[index].id)
    else Failure(TypeError)
  }

  /** After a sync from a token whose collateral is listed, the selected entry carries that collateral. */
  lemma SyncedIndexResolvesCollateral(n: Network, t: OToken)
    requires exists i :: 0 <= i < |Tokens(n)| && Tokens(n)[i].id == t.collateralAsset
    ensures CollateralAddress(None, n, CollateralIndexOf(n, t.collateralAsset)) == Success(t.collateralAsset)
  {
  }

  /**
   * After a sync from a token whose collateral is not listed, a vault without
   * a collateral asset (or no vault at all) makes the render throw.
   */
  lemma UnlistedCollateralThrows(vault: Option<VaultSnapshot>, n: Network, t: OToken)
    requires vault.None? || vault.value.collateralAsset.None?
    requires forall i :: 0 <= i < |Tokens(n)| ==> Tokens(n)[i].id != t.collateralAsset
    ensures CollateralAddress(vault, n, CollateralIndexOf(n, t.collateralAsset)) == Failure(TypeError)
  {
  }

  // ---------------------------------------------------------------------------
  // Dropdown list

  /** An oToken fits the vault: same collateral (any under the zero address) and same expiry (any under 0). */
  predicate Compatible(o: OToken, collateral: Address, vaultExpiry: nat)
  {
    (o.collateralAsset == collateral || collateral == ZeroAddr) && (o.expiryTimestamp == vaultExpiry || vaultExpiry == 0)
  }

  /** The oTokens offered in the long and short dropdowns: a collateral filter, then an expiry filter. */
  function TokensInSelection(allOtokens: Option<seq<OToken>>, collateral: Address, vaultExpiry: nat): (r: seq<OToken>)
    ensures allOtokens.None? ==> r == []
    ensures forall o :: o in r ==> allOtokens.Some? && o in allOtokens.value && Compatible(o, collateral, vaultExpiry)
    ensures allOtokens.Some? ==> forall i :: 0 <= i < |allOtokens.value| && Compatible(allOtokens.value[i], collateral, vaultExpiry) ==> allOtokens.value[i] in r
  {
    if allOtokens.None? then []
    else
      var sameCollateral := Filter(allOtokens.value, (o: OToken) => o.collateralAsset == collateral || collateral == ZeroAddr);
      Filter(sameCollateral, (o: OToken) => o.expiryTimestamp == vaultExpiry || vaultExpiry == 0)
  }

  /** The two filters amount to one order-preserving filter by compatibility. */
  lemma TokensInSelectionIsOneFilter(all: seq<OToken>, collateral: Address, vaultExpiry: nat)
    ensures TokensInSelection(Some(all), collateral, vaultExpiry) == Filter(all, (o: OToken) => Compatible(o, collateral, vaultExpiry))
  {
    var p := (o: OToken) => o.collateralAsset == collateral || collateral == ZeroAddr;
    var q := (o: OToken) => o.expiryTimestamp == vaultExpiry || vaultExpiry == 0;
    FilterFilter(all, p, q, (o: OToken) => Compatible(o, collateral, vaultExpiry));
  }

  /** With no collateral or expiry resolved, every live oToken is offered, in order. */
  lemma WildcardOffersAll(all: seq<OToken>)
    ensures TokensInSelection(Some(all), ZeroAddr, 0) == all
  {
    TokensInSelectionIsOneFilter(all, ZeroAddr, 0);
    FilterKeepsAll(all, (o: OToken) => Compatible(o, ZeroAddr, 0));
  }

  /** The list of a concatenation is the concatenation of the lists. */
  lemma TokensInSelectionConcat(a: seq<OToken>, b: seq<OToken>, collateral: Address, vaultExpiry: nat)
    ensures TokensInSelection(Some(a + b), collateral, vaultExpiry)
      == TokensInSelection(Some(a), collateral, vaultExpiry) + TokensInSelection(Some(b), collateral, vaultExpiry)
  {
    var p := (o: OToken) => Compatible(o, collateral, vaultExpiry);
    TokensInSelectionIsOneFilter(a + b, collateral, vaultExpiry);
    TokensInSelectionIsOneFilter(a, collateral, vaultExpiry);
    TokensInSelectionIsOneFilter(b, collateral, vaultExpiry);
    FilterConcat(a, b, p);
  }

  /** A mismatched collateral or a mismatched expiry excludes a candidate. */
  lemma MismatchesExcluded(c: Address, c2: Address, e: nat, e2: nat)
    requires c != c2 && c != ZeroAddr && e != e2 && e != 0
    ensures TokensInSelection(Some([OToken("a", "A", c, e), OToken("b", "B", c, e2), OToken("c", "C", c2, e)]), c, e)
      == [OToken("a", "A", c, e)]
  {
    var all := [OToken("a", "A", c, e), OToken("b", "B", c, e2), OToken("c", "C", c2, e)];
    var fits := (o: OToken) => Compatible(o, c, e);
    TokensInSelectionIsOneFilter(all, c, e);
    assert all[1..] == [all[1], all[2]] && all[1..][1..] == [all[2]] && all[1..][1..][1..] == [];
    assert Filter(all[1..][1..], fits) == [];
    assert Filter(all[1..], fits) == [];
  }

  /**
   * A live token in effect stays on offer once the sync has taken its expiry:
   * the list keeps it and the dropdown highlights it.
   */
  lemma SyncedTokenIsOffered(all: seq<OToken>, t: OToken, collateral: Address)
    requires t in all
    requires collateral == t.collateralAsset || collateral == ZeroAddr
    ensures t in TokensInSelection(Some(all), collateral, t.expiryTimestamp)
    ensures SelectedIndex(TokensInSelection(Some(all), collateral, t.expiryTimestamp), Some(t)) != -1
  {
  }

  // ---------------------------------------------------------------------------
  // Dropdown mapping

  /** The dropdown's highlighted index: the position of the token in effect, by id, or -1. */
  function SelectedIndex(list: seq<OToken>, current: Option<OToken>): (r: int)
    ensures -1 <= r < |list|
    ensures current.None? ==> r == -1
    ensures current.Some? && r == -1 ==> forall i :: 0 <= i < |list| ==> list[i].id != current.value.id
    ensures 0 <= r ==> current.Some? && list[r].id == current.value.id
    ensures 0 <= r ==> forall i :: 0 <= i < r ==> list[i].id != current.value.id
  {
    if current.None? then -1
    else FindIndex(list, (o: OToken) => o.id == current.value.id)
  }

  /** The selection a dropdown change produces: nothing for -1 or an index past the list, else that entry. */
  function OnChangeSelection(list: seq<OToken>, idx: int): (r: Option<OToken>)
    ensures r.None? <==> !(0 <= idx < |list|)
    ensures r.Some? ==> r.value == list[idx]
  {
    if idx == -1 || !(0 <= idx < |list|) then None
    else Some(list[idx])
  }

  /** Picking entry `i` highlights the first entry with the same id, which is `i` when ids are distinct. */
  lemma PickThenHighlight(list: seq<OToken>, i: int)
    requires 0 <= i < |list|
    ensures 0 <= SelectedIndex(list, OnChangeSelection(list, i)) <= i
    ensures list[SelectedIndex(list, OnChangeSelection(list, i))].id == list[i].id
    ensures (forall j, k :: 0 <= j < k < |list| ==> list[j].id != list[k].id) ==> SelectedIndex(list, OnChangeSelection(list, i)) == i
  {
  }

  /** Re-picking the highlighted entry selects a token with the same id as the one in effect. */
  lemma HighlightThenPick(list: seq<OToken>, current: OToken)
    requires SelectedIndex(list, Some(current)) != -1
    ensures OnChangeSelection(list, SelectedIndex(list, Some(current))).Some?
    ensures OnChangeSelection(list, SelectedIndex(list, Some(current))).value.id == current.id
  {
  }

  /** Whatever a dropdown change selects is compatible with the vault's collateral and expiry. */
  lemma SelectionIsCompatible(all: Option<seq<OToken>>, collateral: Address, vaultExpiry: nat, idx: int)
    requires OnChangeSelection(TokensInSelection(all, collateral, vaultExpiry), idx).Some?
    ensures Compatible(OnChangeSelection(TokensInSelection(all, collateral, vaultExpiry), idx).value, collateral, vaultExpiry)
  {
  }

  // ---------------------------------------------------------------------------
  // Header and row controls

  /** The header's primary button: Settle for an expired vault, else Operate with its state. */
  datatype PrimaryButton = SettleButton | OperateButton(enabled: bool, spinner: bool, pending: nat)

  function PrimaryButtonFor(expired: bool, pending: nat, isSendingTx: bool): (b: PrimaryButton)
    ensures b.SettleButton? <==> expired
    ensures b.OperateButton? ==> (b.enabled <==> pending > 0 && !isSendingTx)
    ensures b.OperateButton? ==> b.spinner == isSendingTx && b.pending == pending
  {
    if expired then SettleButton
    else OperateButton(!(pending == 0 || isSendingTx), isSendingTx, pending)
  }

  /** Operate can be clicked only on a live vault with staged actions and nothing in flight. */
  predicate OperateEnabled(expired: bool, pending: nat, isSendingTx: bool)
  {
    var b := PrimaryButtonFor(expired, pending, isSendingTx);
    b.OperateButton? && b.enabled
  }

  /** The amount input and the Add/Remove buttons of a row. */
  datatype RowControls = RowControls(inputEnabled: bool, addEnabled: bool, removeEnabled: bool)

  function RowControlsFor(expired: bool): (c: RowControls)
    ensures expired ==> !c.inputEnabled && !c.addEnabled && !c.removeEnabled
    ensures !expired ==> c.inputEnabled && c.addEnabled && c.removeEnabled
  {
    RowControls(!expired, !expired, !expired)
  }

  /** An expired vault can be settled but not edited: no Operate, and every row is locked. */
  lemma ExpiredLocksEditing(vault: Option<VaultSnapshot>, nowMs: int, pending: nat, isSendingTx: bool)
    requires IsExpired(vault, nowMs)
    ensures PrimaryButtonFor(IsExpired(vault, nowMs), pending, isSendingTx) == SettleButton
    ensures !OperateEnabled(IsExpired(vault, nowMs), pending, isSendingTx)
    ensures RowControlsFor(IsExpired(vault, nowMs)) == RowControls(false, false, false)
  {
  }
}
