/**
 * The movie detail page: the number of copies shown, who sees the rent
 * button and when it is enabled, the rent handler, and the vendor's stock
 * form with its validation.
 */
module MovieDetailPage {
  import opened Wrappers
  import opened Types
  import Codec
  import InventoryApi

  /** The result of JavaScript's `Number(text)` on the texts this model reads: an integer or `NaN`. */
  datatype JsNumber = Finite(n: int) | NaN

  function ParseNumber(text: string): JsNumber
  {
    match Codec.ParseInt(text)
    case Some(n) => Finite(n)
    case None => NaN
  }

  /** Feedback shown to the user. */
  datatype Toast = Success(message: string) | Failure(message: string)

  /** How an awaited mutation settled; a failure may carry the backend's `error` and `detail` texts. */
  datatype MutationReply = Done | Failed(error: Option<string>, detail: Option<string>)

  /** `a || b` on optional texts: the first that is present and non-empty, else the fallback. */
  function FirstTruthy(texts: seq<Option<string>>, fallback: string): (r: string)
    requires fallback != ""
    ensures r != ""
    ensures r == fallback || exists i :: 0 <= i < |texts| && texts[i] == Some(r)
  {
    if texts == [] then fallback
    else if texts[0].Some? && texts[0].value != "" then texts[0].value
    else
      var r := FirstTruthy(texts[1..], fallback);
      assert r != fallback ==> exists i :: 0 <= i < |texts[1..]| && texts[1..][i] == Some(r);
      assert forall i :: 0 <= i < |texts[1..]| ==> texts[1..][i] == texts[i + 1];
      r
  }

  // ------------------------------------------------------------ rent button

  /** `inventory?.available_copies ?? 0`. */
  function Copies(inventory: Option<Inventory>): int
  {
    if inventory.Some? then inventory.value.availableCopies else 0
  }

  function Role(user: Option<User>): Option<Role>
  {
    if user.Some? then Some(user.value.role) else None
  }

  predicate RentButtonShown(isAuthenticated: bool, user: Option<User>)
  {
    isAuthenticated && Role(user) == Some(Customer)
  }

  predicate RentButtonDisabled(inventory: Option<Inventory>, renting: bool)
  {
    Copies(inventory) <= 0 || renting
  }

  predicate LoginPromptShown(isAuthenticated: bool) { !isAuthenticated }

  predicate StockPanelShown(isAuthenticated: bool, user: Option<User>)
  {
    isAuthenticated && Role(user) == Some(Vendor)
  }

  /**
   * The rent button can be pressed only by a signed-in customer, only while
   * no rent is in flight, and only when a stock record with a copy available
   * has loaded; and it can be pressed in every such case.
   */
  lemma RentButtonUsable(isAuthenticated: bool, user: Option<User>, inventory: Option<Inventory>, renting: bool)
    ensures RentButtonShown(isAuthenticated, user) && !RentButtonDisabled(inventory, renting) <==>
      && isAuthenticated && user.Some? && user.value.role == Customer
      && !renting && inventory.Some? && inventory.value.availableCopies > 0
  {
  }

  /**
   * At most one of the login prompt, the rent button and the stock panel is
   * offered to any visitor; an admin, and a signed-in visitor whose user has
   * not loaded, get none.
   */
  lemma OneActionPerVisitor(isAuthenticated: bool, user: Option<User>)
    ensures LoginPromptShown(isAuthenticated) ==> !RentButtonShown(isAuthenticated, user) && !StockPanelShown(isAuthenticated, user)
    ensures !(RentButtonShown(isAuthenticated, user) && StockPanelShown(isAuthenticated, user))
    ensures isAuthenticated && (user.None? || user.value.role == Admin) ==>
      !LoginPromptShown(isAuthenticated) && !RentButtonShown(isAuthenticated, user) && !StockPanelShown(isAuthenticated, user)
  {
  }

  // ---------------------------------------------------------------- renting

  /** What `handleRent` does first: a signed-out visitor is sent to `/login`, anyone else rents `Number(id)`. */
  datatype RentStep = GoToLogin | Rent(movie: JsNumber)

  function RentAction(isAuthenticated: bool, routeId: string): RentStep
  {
    if !isAuthenticated then GoToLogin else Rent(ParseNumber(routeId))
  }

  /** The toast after the awaited rent. */
  function RentFeedback(reply: MutationReply): Toast
  {
    match reply
    case Done => Success("Movie rented successfully!")
    case Failed(error, detail) => Failure(FirstTruthy([error, detail], "Failed to rent movie"))
  }

  /**
   * A signed-out visitor never issues the rent mutation; a signed-in one on
   * `/movies/<n>` rents movie `n`.
   */
  lemma RentGuard(isAuthenticated: bool, n: int)
    ensures !isAuthenticated ==> RentAction(isAuthenticated, Codec.IntToString(n)) == GoToLogin
    ensures isAuthenticated ==> RentAction(isAuthenticated, Codec.IntToString(n)) == Rent(Finite(n))
  {
    Codec.IntRoundTrip(n);
  }

  /** A failed rent always shows a message: the backend's `error`, else its `detail`, else the fallback. */
  lemma RentFailureExplained(error: Option<string>, detail: Option<string>)
    ensures RentFeedback(Failed(error, detail)).Failure?
    ensures var m := RentFeedback(Failed(error, detail)).message;
      m != "" && (m == "Failed to rent movie" || Some(m) == error || Some(m) == detail)
    ensures error.Some? && error.value != "" ==> RentFeedback(Failed(error, detail)).message == error.value
  {
    var m := RentFeedback(Failed(error, detail)).message;
    assert m == "Failed to rent movie" || exists i :: 0 <= i < 2 && [error, detail][i] == Some(m);
  }

  // ------------------------------------------------------------- stock form

  datatype FormError = InvalidNumbers | AvailableExceedsTotal

  function ErrorMessage(e: FormError): string
  {
    match e
    case InvalidNumbers => "Please enter valid numbers"
    case AvailableExceedsTotal => "Available copies cannot exceed total copies"
  }

  /** A blank input keeps the record's current value; anything else is read as `Number(text)`. */
  function FieldValue(text: string, current: int): JsNumber
  {
    if text == "" then Finite(current) else ParseNumber(text)
  }

  /** The checks of `handleInventoryUpdate` before it sends anything. */
  function ValidateUpdate(inventory: Inventory, newTotal: string, newAvailable: string): Result<InventoryApi.Mutation, FormError>
  {
    var total := FieldValue(newTotal, inventory.totalCopies);
    var available := FieldValue(newAvailable, inventory.availableCopies);
    if total.NaN? || available.NaN? || total.n < 0 || available.n < 0 then Err(InvalidNumbers)
    else if available.n > total.n then Err(AvailableExceedsTotal)
    else Ok(InventoryApi.UpdateInventory(inventory.id, total.n, available.n))
  }

  /** Every update the form sends is for the record on screen and keeps `0 <= available <= total`. */
  lemma SentUpdatesAreConsistent(inventory: Inventory, newTotal: string, newAvailable: string)
    ensures var r := ValidateUpdate(inventory, newTotal, newAvailable);
      r.Ok? ==> r.value.id == inventory.id && 0 <= r.value.availableCopies <= r.value.totalCopies
    ensures var r := ValidateUpdate(inventory, newTotal, newAvailable);
      r.Ok? ==> (
        && (newTotal == "" ==> r.value.totalCopies == inventory.totalCopies)
        && (newAvailable == "" ==> r.value.availableCopies == inventory.availableCopies))
  {
  }

  /**
   * Typed numbers are sent as typed when `0 <= available <= total`; a
   * negative one is refused as invalid, and more available than total copies
   * is refused as such.
   */
  lemma TypedNumbersDecide(inventory: Inventory, total: int, available: int)
    ensures ValidateUpdate(inventory, Codec.IntToString(total), Codec.IntToString(available)) ==
      if total < 0 || available < 0 then Err(InvalidNumbers)
      else if available > total then Err(AvailableExceedsTotal)
      else Ok(InventoryApi.UpdateInventory(inventory.id, total, available))
  {
    Codec.IntRoundTrip(total);
    Codec.IntRoundTrip(available);
  }

  /** A field that is not a number is refused, whatever the other field holds. */
  lemma UnreadableFieldRefused(inventory: Inventory, newTotal: string, newAvailable: string)
    requires (newTotal != "" && Codec.ParseInt(newTotal).None?) || (newAvailable != "" && Codec.ParseInt(newAvailable).None?)
    ensures ValidateUpdate(inventory, newTotal, newAvailable) == Err(InvalidNumbers)
  {
  }

  /** `updatingInventory || (newCopies === "" && newTotalCopies === "")`. */
  predicate UpdateButtonDisabled(updating: bool, newAvailable: string, newTotal: string)
  {
    updating || (newAvailable == "" && newTotal == "")
  }

  /**
   * The Update button is enabled exactly when no update is in flight and at
   * least one field is filled in. The blank form it refuses would resend the
   * record's own figures unchanged.
   */
  lemma UpdateButtonNeedsInput(updating: bool, newAvailable: string, newTotal: string, inventory: Inventory)
    ensures !UpdateButtonDisabled(updating, newAvailable, newTotal) <==> !updating && (newAvailable != "" || newTotal != "")
    ensures 0 <= inventory.availableCopies <= inventory.totalCopies ==>
      && UpdateButtonDisabled(updating, "", "")
      && ValidateUpdate(inventory, "", "") == Ok(InventoryApi.UpdateInventory(inventory.id, inventory.totalCopies, inventory.availableCopies))
  {
  }

  /** The two figures of the stock panel: total copies, then available copies. */
  function StockFigures(inventory: Inventory): (int, int)
  {
    (inventory.totalCopies, inventory.availableCopies)
  }

  /** The stock panel as written: its "Total Copies" card reads the available count. */
  function StockFiguresAsWritten(inventory: Inventory): (int, int)
  {
    (inventory.availableCopies, inventory.availableCopies)
  }

  /**
   * A form left blank in one field keeps the figure the panel shows for it:
   * what the vendor reads is what a blank field submits.
   */
  lemma BlankFieldsKeepShownFigures(inventory: Inventory, newTotal: string, newAvailable: string)
    requires ValidateUpdate(inventory, newTotal, newAvailable).Ok?
    ensures var m := ValidateUpdate(inventory, newTotal, newAvailable).value;
      && (newTotal == "" ==> m.totalCopies == StockFigures(inventory).0)
      && (newAvailable == "" ==> m.availableCopies == StockFigures(inventory).1)
  {
  }

  /** On a record with 5 copies of which 3 are available, the written panel shows 3 as the total a blank field keeps at 5. */
  lemma TotalCardShowsAvailable()
    ensures var inv := Inventory(1, 7, "Heat", 5, 3, 2);
      && ValidateUpdate(inv, "", "4").Ok?
      && ValidateUpdate(inv, "", "4").value.totalCopies != StockFiguresAsWritten(inv).0
  {
    var inv := Inventory(1, 7, "Heat", 5, 3, 2);
    Codec.IntRoundTrip(4);
    assert Codec.IntToString(4) == "4";
  }

  /** The two inputs of the stock form, updated by their `onChange` setters and cleared after a successful update. */
  class StockForm {
    var newAvailable: string
    var newTotal: string

    constructor ()
      ensures newAvailable == "" && newTotal == ""
    {
      newAvailable := "";
      newTotal := "";
    }

    method SetNewAvailable(text: string)
      modifies this
      ensures newAvailable == text && newTotal == old(newTotal)
    {
      newAvailable := text;
    }

    method SetNewTotal(text: string)
      modifies this
      ensures newTotal == text && newAvailable == old(newAvailable)
    {
      newTotal := text;
    }

    /**
     * `handleInventoryUpdate`, with `reply` standing for how the awaited
     * update settles. Nothing is sent without a record or when validation
     * fails; the inputs are cleared only after the update succeeds.
     */
    method HandleInventoryUpdate(inventory: Option<Inventory>, reply: MutationReply)
      returns (sent: Option<InventoryApi.Mutation>, toast: Option<Toast>)
      modifies this
      ensures inventory.None? ==> sent.None? && toast.None? && unchanged(this)
      ensures inventory.Some? ==>
        match ValidateUpdate(inventory.value, old(newTotal), old(newAvailable))
        case Err(e) => sent.None? && toast == Some(Failure(ErrorMessage(e))) && unchanged(this)
        case Ok(m) =>
          && sent == Some(m)
          && (reply.Done? ==> toast == Some(Success("Inventory updated!")) && newAvailable == "" && newTotal == "")
          && (reply.Failed? ==> toast == Some(Failure(FirstTruthy([reply.detail], "Failed to update inventory"))) && unchanged(this))
    {
      sent, toast := None, None;
      if inventory.None? {
        return;
      }
      var inv := inventory.value;
      var total := if newTotal == "" then Finite(inv.totalCopies) else ParseNumber(newTotal);
      var available := if newAvailable == "" then Finite(inv.availableCopies) else ParseNumber(newAvailable);
      if total.NaN? || available.NaN? || total.n < 0 || available.n < 0 {
        toast := Some(Failure(ErrorMessage(InvalidNumbers)));
        return;
      }
      if available.n > total.n {
        toast := Some(Failure(ErrorMessage(AvailableExceedsTotal)));
        return;
      }
      sent := Some(InventoryApi.UpdateInventory(inv.id, total.n, available.n));
      match reply {
        case Done =>
          toast := Some(Success("Inventory updated!"));
          newAvailable := "";
          newTotal := "";
        case Failed(_, detail) =>
          toast := Some(Failure(FirstTruthy([detail], "Failed to update inventory")));
      }
    }
  }
}
