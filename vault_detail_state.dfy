/**
 * The mutable view state of the vault detail screen: the amount inputs, the
 * dropdown selections, the synced vault expiry, the in-flight flag of the
 * Operate button, and the list of actions staged on the controller. Each
 * event handler of the screen is a method; the derivations it consults are
 * the functions of module VaultDetail.
 */
module VaultDetailState {
  import opened Wrappers
  import opened Addresses
  import opened VaultDetail

  /** The rows of the vault table whose amount the user types. */
  datatype Row = CollateralRow | OTokenRow(side: Side)

  /** The arguments handed to the controller's settle call. */
  datatype SettleCall = SettleCall(owner: Address, vaultId: string, counterparty: Address)

  /** The notice shown when a long/short push finds no token in effect. */
  function NoTokenNotice(side: Side): string
  {
    match side
    case Long => "No long token selected"
    case Short => "No short token selected"
  }

  class VaultDetailView {
    /**
     * The wallet's network and user, and the route's vault owner and id: the
     * screen shows the vault numbered `vaultId` of `owner`.
     */
    const network: Network
    const owner: Address
    const vaultId: string
    const user: Address

    var vaultExpiry: nat
    var isSendingTx: bool
    var changeCollateralAmount: real
    var changeLongAmount: real
    var changeShortAmount: real
    var selectedCollateralIndex: int
    var selectedLong: Option<OToken>
    var selectedShort: Option<OToken>
    /** The actions staged on the controller, in the order they will be executed. */
    var actions: seq<Action>

    /**
     * The collateral index is a table position or the -1 of a failed lookup,
     * and every staged action names the user's own vault numbered `vaultId`,
     * with the user as owner and counterparty. That is the displayed vault
     * only when the user is the route owner.
     */
    ghost predicate Valid()
      reads this
    {
      && -1 <= selectedCollateralIndex < |Tokens(network)|
      && forall i :: 0 <= i < |actions| ==>
           actions[i].owner == user && actions[i].vaultId == vaultId && actions[i].counterparty == user
    }

    constructor (network: Network, owner: Address, vaultId: string, user: Address)
      ensures Valid()
      ensures this.network == network && this.owner == owner && this.vaultId == vaultId && this.user == user
      ensures vaultExpiry == 0 && !isSendingTx
      ensures changeCollateralAmount == 0.0 && changeLongAmount == 0.0 && changeShortAmount == 0.0
      ensures selectedCollateralIndex == 0 && selectedLong.None? && selectedShort.None?
      ensures actions == []
    {
      this.network := network;
      this.owner := owner;
      this.vaultId := vaultId;
      this.user := user;
      vaultExpiry := 0;
      isSendingTx := false;
      changeCollateralAmount, changeLongAmount, changeShortAmount := 0.0, 0.0, 0.0;
      selectedCollateralIndex := 0;
      selectedLong, selectedShort := None, None;
      actions := [];
    }

    /**
     * An operator viewing someone else's vault stages actions on the
     * operator's own vault with the same number: no staged action names the
     * route owner, though the screen labels the vault "My vault".
     */
    lemma OperatorStagesOnOwnVault(vault: Option<VaultSnapshot>)
      requires Valid()
      requires user != owner
      ensures forall i :: 0 <= i < |actions| ==> actions[i].owner != owner
      ensures vault.Some? && user in vault.value.operators ==> IsAuthorized(vault, owner, user)
    {
    }

    /** The user's dropdown selection on one side. */
    function Selection(side: Side): Option<OToken>
      reads this
    {
      match side
      case Long => selectedLong
      case Short => selectedShort
    }

    /** The amount typed into one row. */
    function Amount(row: Row): real
      reads this
    {
      match row
      case CollateralRow => changeCollateralAmount
      case OTokenRow(Long) => changeLongAmount
      case OTokenRow(Short) => changeShortAmount
    }

    /** An amount input changed: the typed value, or 0 when the field was cleared (None). */
    method OnAmountInput(row: Row, text: Option<real>)
      requires Valid()
      modifies this`changeCollateralAmount, this`changeLongAmount, this`changeShortAmount
      ensures Valid()
      ensures Amount(row) == (if text.Some? then text.value else 0.0)
      ensures forall r :: r != row ==> Amount(r) == old(Amount(r))
    {
      var v := if text.Some? then text.value else 0.0;
      match row
      case CollateralRow => changeCollateralAmount := v;
      case OTokenRow(Long) => changeLongAmount := v;
      case OTokenRow(Short) => changeShortAmount := v;
    }

    /** The collateral dropdown picked one of the network's tokens. */
    method OnCollateralDropdownChange(idx: int)
      requires Valid()
      requires 0 <= idx < |Tokens(network)|
      modifies this`selectedCollateralIndex
      ensures Valid()
      ensures selectedCollateralIndex == idx
    {
      selectedCollateralIndex := idx;
    }

    /**
     * A long or short dropdown changed. The dropdown offers the live oTokens
     * compatible with the collateral at render time and the synced expiry;
     * the selection becomes the picked entry, or nothing.
     */
    method OnTokenDropdownChange(side: Side, vault: Option<VaultSnapshot>, allOtokens: Option<seq<OToken>>, idx: int)
      requires Valid()
      requires CollateralAddress(vault, network, selectedCollateralIndex).Success?
      modifies this`selectedLong, this`selectedShort
      ensures Valid()
      ensures var collateral := CollateralAddress(vault, network, selectedCollateralIndex).value;
              Selection(side) == OnChangeSelection(TokensInSelection(allOtokens, collateral, vaultExpiry), idx)
      ensures Selection(side).Some? ==>
                Compatible(Selection(side).value, CollateralAddress(vault, network, selectedCollateralIndex).value, vaultExpiry)
      ensures forall s :: s != side ==> Selection(s) == old(Selection(s))
    {
      var list := TokensInSelection(allOtokens, CollateralAddress(vault, network, selectedCollateralIndex).value, vaultExpiry);
      var picked := OnChangeSelection(list, idx);
      if picked.Some? {
        assert list[idx] in list;
      }
      match side
      case Long => selectedLong := picked;
      case Short => selectedShort := picked;
    }

    /**
     * The expiry/collateral sync: the short token in effect decides, else the
     * long one; with neither, the expiry goes back to 0 ("any") and the
     * collateral index stays.
     */
    method SyncExpiryAndCollateral(vault: Option<VaultSnapshot>)
      requires Valid()
      modifies this`vaultExpiry, this`selectedCollateralIndex
      ensures Valid()
      ensures var short := Effective(Short, vault, selectedShort);
              var long := Effective(Long, vault, selectedLong);
              if short.Some? then
                vaultExpiry == short.value.expiryTimestamp
                && selectedCollateralIndex == CollateralIndexOf(network, short.value.collateralAsset)
              else if long.Some? then
                vaultExpiry == long.value.expiryTimestamp
                && selectedCollateralIndex == CollateralIndexOf(network, long.value.collateralAsset)
              else
                vaultExpiry == 0 && selectedCollateralIndex == old(selectedCollateralIndex)
    {
      var short := Effective(Short, vault, selectedShort);
      var long := Effective(Long, vault, selectedLong);
      if short.Some? {
        vaultExpiry := short.value.expiryTimestamp;
        selectedCollateralIndex := CollateralIndexOf(network, short.value.collateralAsset);
      } else if long.Some? {
        vaultExpiry := long.value.expiryTimestamp;
        selectedCollateralIndex := CollateralIndexOf(network, long.value.collateralAsset);
      } else {
        vaultExpiry := 0;
      }
    }

    /**
     * Add or Remove on the collateral row: always stages one action on the
     * collateral token, scaled at its decimals, and clears the input. The
     * collateral token is the one resolved from the collateral address at
     * render time.
     */
    method PushCollateral(dir: Direction, vault: Option<VaultSnapshot>, collateral: Token, scale: (real, nat) -> int)
      requires Valid()
      requires CollateralAddress(vault, network, selectedCollateralIndex) == Success(collateral.id)
      modifies this`actions, this`changeCollateralAmount
      ensures Valid()
      ensures actions == old(actions) +
        [Action(CollateralKind(dir), user, vaultId, user, collateral.id, scale(old(changeCollateralAmount), collateral.decimals))]
      ensures changeCollateralAmount == 0.0
    {
      actions := actions + [Action(CollateralKind(dir), user, vaultId, user, collateral.id, scale(changeCollateralAmount, collateral.decimals))];
      changeCollateralAmount := 0.0;
    }

    /**
     * Add or Remove on the long row (add/remove long) or the short row
     * (mint/burn). With no token in effect, a notice is shown and nothing
     * changes; otherwise one action on the token in effect, scaled at 8
     * decimals, is staged and the row's input is cleared.
     */
    method PushOToken(side: Side, dir: Direction, vault: Option<VaultSnapshot>, scale: (real, nat) -> int)
      returns (notice: Option<string>)
      requires Valid()
      modifies this`actions, this`changeLongAmount, this`changeShortAmount
      ensures Valid()
      ensures var current := Effective(side, vault, Selection(side));
              if current.None? then
                notice == Some(NoTokenNotice(side)) && actions == old(actions)
                && Amount(OTokenRow(side)) == old(Amount(OTokenRow(side)))
              else
                notice.None?
                && actions == old(actions) +
                     [Action(OTokenKind(side, dir), user, vaultId, user, current.value.id, scale(old(Amount(OTokenRow(side))), OTokenDecimals))]
                && Amount(OTokenRow(side)) == 0.0
      ensures forall s :: s != side ==> Amount(OTokenRow(s)) == old(Amount(OTokenRow(s)))
    {
      var current := Effective(side, vault, Selection(side));
      if current.None? {
        notice := Some(NoTokenNotice(side));
        return;
      }
      var bound := Bound(vault, side);
      var oToken := if bound.Some? then bound.value.id else current.value.id;
      var amount := scale(Amount(OTokenRow(side)), OTokenDecimals);
      actions := actions + [Action(OTokenKind(side, dir), user, vaultId, user, oToken, amount)];
      match side {
        case Long => changeLongAmount := 0.0;
        case Short => changeShortAmount := 0.0;
      }
      notice := None;
    }

    /**
     * A click on Operate: when the button is enabled, the flag goes up and the
     * staged actions are handed to the controller; a click on a disabled
     * button does nothing. Raising the flag rebuilds the controller, so what
     * the staged list holds afterwards is not known here beyond Valid().
     * `expired` is the screen's memoized expiry, `IsExpired(vault, nowMs)` as
     * of the last change of the vault snapshot.
     */
    method ClickOperate(expired: bool) returns (batch: Option<seq<Action>>)
      requires Valid()
      modifies this`isSendingTx, this`actions
      ensures Valid()
      ensures OperateEnabled(expired, |old(actions)|, old(isSendingTx)) ==> isSendingTx && batch == Some(old(actions))
      ensures !OperateEnabled(expired, |old(actions)|, old(isSendingTx)) ==>
                isSendingTx == old(isSendingTx) && batch.None? && actions == old(actions)
    {
      if OperateEnabled(expired, |actions|, isSendingTx) {
        isSendingTx := true;
        batch := Some(actions);
      } else {
        batch := None;
      }
    }

    /**
     * The controller's completion callback, on success and on failure alike.
     * Lowering the flag rebuilds the controller again; when the flag was
     * already down nothing changes.
     */
    method OperateCompleted()
      requires Valid()
      modifies this`isSendingTx, this`actions
      ensures Valid()
      ensures !isSendingTx
      ensures !old(isSendingTx) ==> actions == old(actions)
    {
      isSendingTx := false;
    }

    /**
     * A click on Settle, which is shown only for an expired vault, settles the
     * user's own vault numbered `vaultId` (the displayed vault only when the
     * user is the route owner). `expired` is the screen's memoized expiry,
     * `IsExpired(vault, nowMs)` as of the last change of the vault snapshot.
     */
    method ClickSettle(expired: bool) returns (call: Option<SettleCall>)
      ensures call.Some? <==> expired
      ensures call.Some? ==> call.value.owner == user && call.value.vaultId == vaultId && call.value.counterparty == user
    {
      call := if expired then Some(SettleCall(user, vaultId, user)) else None;
    }
  }
}
