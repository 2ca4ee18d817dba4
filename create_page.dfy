/**
  The order-creation form of app/create/page.tsx: the list of order drafts
  the form keeps as state and the handlers that edit it, the upload checks
  and resize rule of the image field, the submit checks, and the noun
  selector used in the page header.
 */
module CreatePage {
  import opened Wrappers
  import opened Types
  import opened JsText
  import opened RussianPlural

  // ---------------------------------------------------------------------
  // The header label: `getOrdersText`
  // ---------------------------------------------------------------------

  /** `getOrdersText(n)`: the form of "order" that goes after the count `n`. */
  function OrdersText(n: nat): (r: string)
    ensures 11 <= n % 100 <= 19 ==> r == "заказов"
    ensures r == "заказ" || r == "заказа" || r == "заказов"
  {
    ByLastDigits(n, "заказ", "заказа", "заказов")
  }

  /** The three forms of the noun "order" (заказ) by plural category. */
  function OrderNoun(c: Category): string
  {
    FormOf(c, "заказ", "заказа", "заказов")
  }

  /** The selector picks the form that the CLDR plural category of `n` calls for. */
  lemma OrdersTextFollowsCldr(n: nat)
    ensures OrdersText(n) == OrderNoun(CategoryOf(n))
  {
    ByLastDigitsFollowsCldr(n, "заказ", "заказа", "заказов");
  }

  // ---------------------------------------------------------------------
  // Order drafts and their fields
  // ---------------------------------------------------------------------

  /** One row of the form (`OrderForm`): an order before it has an id or a group. */
  datatype OrderDraft = OrderDraft(
    dateAccepted: string,
    dateDelivery: string,
    customerName: string,
    orderSource: string,
    phrase: string,
    keychainType: KeychainType,
    address: string,
    deliveryType: DeliveryType,
    amount: int,
    status: OrderStatus,
    imageUrl: Option<string>,
    accepted: bool,
    done: bool
  )

  /**
    The draft a new row starts with; `today` is the date part of the current
    time in ISO form (`new Date().toISOString().split("T")[0]`).
   */
  function DefaultDraft(today: string): OrderDraft
  {
    OrderDraft(today, "", "", "", "", GH, "", ToDeliver, 100, Normal, None, false, false)
  }

  /** `keyof OrderForm` */
  datatype DraftField =
    | KeyDateAccepted | KeyDateDelivery | KeyCustomerName | KeyOrderSource | KeyPhrase
    | KeyKeychainType | KeyAddress | KeyDeliveryType | KeyAmount | KeyStatus
    | KeyImageUrl | KeyAccepted | KeyDone

  /** A value a handler passes to `updateOrder`. */
  datatype FieldValue =
    | Text(text: string)
    | Keychain(keychain: KeychainType)
    | Delivery(delivery: DeliveryType)
    | Number(number: int)
    | Status(status: OrderStatus)
    | Image(url: Option<string>)
    | Flag(flag: bool)

  /** The value has the type of the field: every call site of `updateOrder` passes such a pair. */
  predicate Fits(f: DraftField, v: FieldValue)
  {
    match f
    case KeyDateAccepted | KeyDateDelivery | KeyCustomerName | KeyOrderSource | KeyPhrase | KeyAddress => v.Text?
    case KeyKeychainType => v.Keychain?
    case KeyDeliveryType => v.Delivery?
    case KeyAmount => v.Number?
    case KeyStatus => v.Status?
    case KeyImageUrl => v.Image?
    case KeyAccepted | KeyDone => v.Flag?
  }

  /** `draft[field]` */
  function Get(d: OrderDraft, f: DraftField): (v: FieldValue)
    ensures Fits(f, v)
  {
    match f
    case KeyDateAccepted => Text(d.dateAccepted)
    case KeyDateDelivery => Text(d.dateDelivery)
    case KeyCustomerName => Text(d.customerName)
    case KeyOrderSource => Text(d.orderSource)
    case KeyPhrase => Text(d.phrase)
    case KeyKeychainType => Keychain(d.keychainType)
    case KeyAddress => Text(d.address)
    case KeyDeliveryType => Delivery(d.deliveryType)
    case KeyAmount => Number(d.amount)
    case KeyStatus => Status(d.status)
    case KeyImageUrl => Image(d.imageUrl)
    case KeyAccepted => Flag(d.accepted)
    case KeyDone => Flag(d.done)
  }

  /** `{ ...draft, [field]: value }`: the field gets the value, every other field keeps its own. */
  function SetField(d: OrderDraft, f: DraftField, v: FieldValue): (r: OrderDraft)
    requires Fits(f, v)
    ensures Get(r, f) == v
    ensures forall g :: g != f ==> Get(r, g) == Get(d, g)
  {
    match f
    case KeyDateAccepted => d.(dateAccepted := v.text)
    case KeyDateDelivery => d.(dateDelivery := v.text)
    case KeyCustomerName => d.(customerName := v.text)
    case KeyOrderSource => d.(orderSource := v.text)
    case KeyPhrase => d.(phrase := v.text)
    case KeyKeychainType => d.(keychainType := v.keychain)
    case KeyAddress => d.(address := v.text)
    case KeyDeliveryType => d.(deliveryType := v.delivery)
    case KeyAmount => d.(amount := v.number)
    case KeyStatus => d.(status := v.status)
    case KeyImageUrl => d.(imageUrl := v.url)
    case KeyAccepted => d.(accepted := v.flag)
    case KeyDone => d.(done := v.flag)
  }

  /** A draft is determined by its fields. */
  lemma DraftsEqualByFields(d: OrderDraft, e: OrderDraft)
    requires forall f :: Get(d, f) == Get(e, f)
    ensures d == e
  {
    assert Get(d, KeyDateAccepted) == Get(e, KeyDateAccepted);
    assert Get(d, KeyDateDelivery) == Get(e, KeyDateDelivery);
    assert Get(d, KeyCustomerName) == Get(e, KeyCustomerName);
    assert Get(d, KeyOrderSource) == Get(e, KeyOrderSource);
    assert Get(d, KeyPhrase) == Get(e, KeyPhrase);
    assert Get(d, KeyKeychainType) == Get(e, KeyKeychainType);
    assert Get(d, KeyAddress) == Get(e, KeyAddress);
    assert Get(d, KeyDeliveryType) == Get(e, KeyDeliveryType);
    assert Get(d, KeyAmount) == Get(e, KeyAmount);
    assert Get(d, KeyStatus) == Get(e, KeyStatus);
    assert Get(d, KeyImageUrl) == Get(e, KeyImageUrl);
    assert Get(d, KeyAccepted) == Get(e, KeyAccepted);
    assert Get(d, KeyDone) == Get(e, KeyDone);
  }

  /**
    Setting a field is the ONLY change: any draft that agrees with `d` outside
    field `f` and holds `v` in `f` is `SetField(d, f, v)`. Writing back a
    field's own value changes nothing, and a second write to the same field
    overrides the first.
   */
  lemma SetFieldLaws(d: OrderDraft, f: DraftField, v: FieldValue, w: FieldValue, e: OrderDraft)
    requires Fits(f, v) && Fits(f, w)
    ensures (Get(e, f) == v && forall g :: g != f ==> Get(e, g) == Get(d, g)) ==> e == SetField(d, f, v)
    ensures SetField(d, f, Get(d, f)) == d
    ensures SetField(SetField(d, f, v), f, w) == SetField(d, f, w)
  {
    var r := SetField(d, f, v);
    if Get(e, f) == v && forall g :: g != f ==> Get(e, g) == Get(d, g) {
      DraftsEqualByFields(e, r);
    }
    DraftsEqualByFields(SetField(d, f, Get(d, f)), d);
    DraftsEqualByFields(SetField(r, f, w), SetField(d, f, w));
  }

  // ---------------------------------------------------------------------
  // Operations on the list of drafts
  // ---------------------------------------------------------------------

  /**
    `updateOrder(index, field, value)` on the list: only field `field` of draft
    `index` changes.
   */
  function UpdatedAt(s: seq<OrderDraft>, index: nat, f: DraftField, v: FieldValue): (r: seq<OrderDraft>)
    requires index < |s| && Fits(f, v)
    ensures |r| == |s|
    ensures Get(r[index], f) == v
    ensures forall g :: g != f ==> Get(r[index], g) == Get(s[index], g)
    ensures forall j :: 0 <= j < |s| && j != index ==> r[j] == s[j]
  {
    s[index := SetField(s[index], f, v)]
  }

  /**
    `s.filter((_, i) => i !== index)`: the position `index` is dropped and the
    others keep their order; an index outside the list drops nothing.
   */
  function RemovedAt(s: seq<OrderDraft>, index: int): (r: seq<OrderDraft>)
    ensures 0 <= index < |s| ==> |r| == |s| - 1
    ensures 0 <= index < |s| ==> forall j :: 0 <= j < index ==> r[j] == s[j]
    ensures 0 <= index < |s| ==> forall j :: index <= j < |r| ==> r[j] == s[j + 1]
    ensures !(0 <= index < |s|) ==> r == s
  {
    if s == [] then []
    else (if index == 0 then [] else [s[0]]) + RemovedAt(s[1..], index - 1)
  }

  // ---------------------------------------------------------------------
  // The image field
  // ---------------------------------------------------------------------

  /** What the form reads of a chosen `File`: its MIME type and its size in bytes. */
  datatype FileInfo = FileInfo(mimeType: string, size: int)

  /** Uploads larger than 5 MB (5 * 1024 * 1024 bytes) are refused. */
  const MaxImageBytes: int := 5 * 1024 * 1024

  datatype UploadVerdict = NoFile | NotAnImage | TooLarge | Accepted

  /**
    The checks at the head of `handleImageUpload`, in their order: no file,
    a type that is not `image/...`, more than 5 MB.
   */
  function CheckUpload(file: Option<FileInfo>): (r: UploadVerdict)
    ensures r == Accepted <==>
            file.Some? && StartsWith(file.value.mimeType, "image/") && file.value.size <= MaxImageBytes
    ensures r == NoFile <==> file.None?
    ensures r == NotAnImage <==> file.Some? && !StartsWith(file.value.mimeType, "image/")
    ensures r == TooLarge <==>
            file.Some? && StartsWith(file.value.mimeType, "image/") && file.value.size > MaxImageBytes
  {
    match file
    case None => NoFile
    case Some(f) =>
      if !StartsWith(f.mimeType, "image/") then NotAnImage
      else if f.size > MaxImageBytes then TooLarge
      else Accepted
  }

  /** The largest side, in pixels, of a stored image. */
  const MaxSide: real := 800.0

  /** A canvas size; the arithmetic yields fractions, so the sides are real. */
  datatype Dimensions = Dimensions(width: real, height: real)

  /**
    The dimensions computed in `img.onload`: an image whose sides are both at
    most 800 keeps its size; otherwise it is scaled so that its longer side is
    800 (the height when the sides are equal), keeping its aspect ratio.
   */
  function Resize(width: nat, height: nat): (r: Dimensions)
    ensures width as real <= MaxSide && height as real <= MaxSide ==>
            r == Dimensions(width as real, height as real)
    ensures (width as real > MaxSide || height as real > MaxSide) ==>
            (if width > height then r.width == MaxSide else r.height == MaxSide)
    ensures 0.0 <= r.width <= MaxSide && 0.0 <= r.height <= MaxSide
    ensures r.width <= width as real && r.height <= height as real
    ensures r.width * (height as real) == (width as real) * r.height
  {
    var w, h := width as real, height as real;
    if w > h && w > MaxSide then
      Dimensions(MaxSide, ScaledSide(h, w))
    else if h > MaxSide then
      Dimensions(ScaledSide(w, h), MaxSide)
    else
      Dimensions(w, h)
  }

  /**
    `(short * 800) / long`, the other side once the longer one is set to 800:
    it stays within 800 and within its own length, in proportion.
   */
  function ScaledSide(short: real, long: real): (s: real)
    requires 0.0 <= short <= long && long > MaxSide
    ensures 0.0 <= s <= MaxSide && s <= short
    ensures MaxSide * short == long * s && s * long == short * MaxSide
  {
    var s := (short * MaxSide) / long;
    assert s * long == short * MaxSide;
    assert short * MaxSide <= long * MaxSide;
    assert short * MaxSide <= short * long;
    s
  }

  // ---------------------------------------------------------------------
  // Submission
  // ---------------------------------------------------------------------

  /** Why `handleSubmit` stops before calling the store. */
  datatype SubmitRefusal = MissingGroupName | NoOrders

  /** The payload of one `createOrder` call: the draft's fields plus `group_id`. */
  datatype OrderInsert = OrderInsert(groupId: string, draft: OrderDraft)

  /**
    What `handleSubmit` asks of the store: nothing, or one group with the name
    as typed and one order per draft.
   */
  datatype SubmitOutcome =
    | Refused(reason: SubmitRefusal)
    | Submitted(groupName: string, inserts: seq<OrderInsert>)

  /** `orders.map((order) => ({ ...order, group_id: groupId }))` */
  function Inserts(drafts: seq<OrderDraft>, groupId: string): (r: seq<OrderInsert>)
    ensures |r| == |drafts|
    ensures forall k :: 0 <= k < |drafts| ==> r[k].groupId == groupId && r[k].draft == drafts[k]
  {
    if drafts == [] then [] else [OrderInsert(groupId, drafts[0])] + Inserts(drafts[1..], groupId)
  }

  // ---------------------------------------------------------------------
  // Field constraints the browser checks before `onSubmit` fires
  // ---------------------------------------------------------------------

  /**
    The `required` and `min="0"` attributes of one row: every text and date
    field non-empty, the address only when the order is delivered, and a
    non-negative amount.
   */
  predicate DraftComplete(d: OrderDraft)
  {
    && d.dateAccepted != "" && d.dateDelivery != ""
    && d.customerName != "" && d.orderSource != "" && d.phrase != ""
    && (d.deliveryType == ToDeliver ==> d.address != "")
    && d.amount >= 0
  }

  /** The address field matters to completeness exactly when the order is delivered. */
  lemma AddressRequiredOnlyForDelivery(d: OrderDraft, a: string)
    ensures d.deliveryType == ComesAndTakes ==>
            DraftComplete(SetField(d, KeyAddress, Text(a))) == DraftComplete(d)
    ensures d.deliveryType == ToDeliver ==> !DraftComplete(SetField(d, KeyAddress, Text("")))
  {
  }

  /**
    The amount handler's value, `parseInt(value) || 0`: NaN (no digits) and
    zero both become 0.
   */
  function AmountFromInput(input: string): (r: int)
    ensures input == "" ==> r == 0
    ensures !(input != "" && IsDigit(input[0])) && !(|input| > 1 && input[0] == '-' && IsDigit(input[1])) ==> r == 0
    ensures input != "" && AllDigits(input) ==> r == DigitsValue(input)
    ensures |input| > 1 && input[0] == '-' && AllDigits(input[1..]) ==> r == -(DigitsValue(input[1..]) as int)
  {
    ParseIntOfNumeral(input);
    match ParseInt(input)
    case None => 0
    case Some(v) => v
  }

  /**
    The amount field shows what it stores: typing the numeral of a whole
    number, possibly followed by a fraction, stores that number, and clearing
    the field stores 0.
   */
  lemma AmountFieldRoundTrip(n: nat, negative: bool, fraction: string)
    requires fraction == "" || fraction[0] == '.'
    ensures AmountFromInput((if negative then "-" else "") + DecimalString(n) + fraction)
            == if negative then -(n as int) else n
    ensures AmountFromInput("") == 0
  {
    ParseIntOfDecimal(n, negative, fraction);
  }

  // ---------------------------------------------------------------------
  // The form's state and its handlers
  // ---------------------------------------------------------------------

  /** The state of `CreatePage`: the group name and the list of drafts. */
  class FormState {
    var groupName: string
    var drafts: seq<OrderDraft>

    /** The page opens with an empty name and one default draft. */
    constructor (today: string)
      ensures groupName == "" && drafts == [DefaultDraft(today)]
    {
      groupName := "";
      drafts := [DefaultDraft(today)];
    }

    /** The group-name input's `onChange`. */
    method SetGroupName(name: string)
      modifies this
      ensures groupName == name && drafts == old(drafts)
    {
      groupName := name;
    }

    /** `addOrder`: appends a default draft. */
    method AddOrder(today: string)
      modifies this
      ensures drafts == old(drafts) + [DefaultDraft(today)]
      ensures |drafts| == old(|drafts|) + 1 && drafts[..old(|drafts|)] == old(drafts)
      ensures var d := drafts[|drafts| - 1];
              && d.amount == 100 && d.status == Normal && d.keychainType == GH
              && d.deliveryType == ToDeliver && d.imageUrl == None && !d.accepted && !d.done
      ensures groupName == old(groupName)
    {
      drafts := drafts + [DefaultDraft(today)];
    }

    /** `removeOrder(index)` */
    method RemoveOrder(index: int)
      modifies this
      ensures drafts == RemovedAt(old(drafts), index)
      ensures old(|drafts|) > 1 ==> |drafts| >= 1
      ensures groupName == old(groupName)
    {
      drafts := RemovedAt(drafts, index);
    }

    /** `updateOrder(index, field, value)`: copies the list and replaces one entry. */
    method UpdateOrder(index: nat, f: DraftField, v: FieldValue)
      requires index < |drafts| && Fits(f, v)
      modifies this
      ensures drafts == UpdatedAt(old(drafts), index, f, v)
      ensures groupName == old(groupName)
    {
      var newOrders := drafts;
      newOrders := newOrders[index := SetField(newOrders[index], f, v)];
      drafts := newOrders;
    }

    /** `removeImage(index)`: `updateOrder(index, "image_url", null)`. */
    method RemoveImage(index: nat)
      requires index < |drafts|
      modifies this
      ensures drafts == UpdatedAt(old(drafts), index, KeyImageUrl, Image(None))
      ensures drafts[index].imageUrl == None
      ensures groupName == old(groupName)
    {
      UpdateOrder(index, KeyImageUrl, Image(None));
    }

    /** The amount input's `onChange`: stores `parseInt(value) || 0`. */
    method UpdateAmount(index: nat, input: string)
      requires index < |drafts|
      modifies this
      ensures drafts == UpdatedAt(old(drafts), index, KeyAmount, Number(AmountFromInput(input)))
      ensures groupName == old(groupName)
    {
      UpdateOrder(index, KeyAmount, Number(AmountFromInput(input)));
    }

    /**
      `handleImageUpload(index, file)`. The browser's part is given: `decoded`
      is the image's size once the file has been read and decoded (None when
      reading or decoding fails) and `encoded` the JPEG data URL the canvas
      produces. On success the canvas size is returned and the draft's image
      is set; otherwise the drafts are left as they were.
     */
    method HandleImageUpload(index: nat, file: Option<FileInfo>, decoded: Option<(nat, nat)>, encoded: string)
      returns (verdict: UploadVerdict, canvas: Option<Dimensions>)
      requires index < |drafts|
      modifies this
      ensures verdict == CheckUpload(file)
      ensures verdict == Accepted && decoded.Some? ==>
              && canvas == Some(Resize(decoded.value.0, decoded.value.1))
              && drafts == UpdatedAt(old(drafts), index, KeyImageUrl, Image(Some(encoded)))
      ensures !(verdict == Accepted && decoded.Some?) ==> canvas == None && drafts == old(drafts)
      ensures groupName == old(groupName)
    {
      verdict := CheckUpload(file);
      canvas := None;
      if verdict != Accepted {
        return;
      }
      match decoded {
        case None =>
        case Some((width, height)) =>
          canvas := Some(Resize(width, height));
          UpdateOrder(index, KeyImageUrl, Image(Some(encoded)));
      }
    }

    /**
      The checks of `handleSubmit` and the calls it then makes: refused when
      the trimmed name is empty, then when there are no drafts; otherwise one
      group under the name as typed (not trimmed) and, once the store has
      given it the id `groupId`, one order per draft in the same order.
     */
    method Submit(groupId: string) returns (outcome: SubmitOutcome)
      ensures outcome == Refused(MissingGroupName) <==> AllWhitespace(groupName)
      ensures outcome == Refused(NoOrders) <==> !AllWhitespace(groupName) && drafts == []
      ensures outcome.Submitted? ==>
              && outcome.groupName == groupName
              && |outcome.inserts| == |drafts|
              && forall k :: 0 <= k < |drafts| ==> outcome.inserts[k] == OrderInsert(groupId, drafts[k])
    {
      TrimEmptyIffAllWhitespace(groupName);
      if Trim(groupName) == "" {
        return Refused(MissingGroupName);
      }
      if |drafts| == 0 {
        return Refused(NoOrders);
      }
      outcome := Submitted(groupName, Inserts(drafts, groupId));
    }
  }

  // ---------------------------------------------------------------------
  // The list never becomes empty
  // ---------------------------------------------------------------------

  /** A user action on the list of drafts. */
  datatype FormEvent =
    | AddClicked(today: string)
    | RemoveClicked(position: int)
    | FieldEdited(index: nat, field: DraftField, value: FieldValue)

  /**
    Whether the page offers the action: a row's delete button is rendered only
    while there is more than one row, and a row's inputs only for rows that exist.
   */
  predicate Offered(s: seq<OrderDraft>, e: FormEvent)
  {
    match e
    case AddClicked(_) => true
    case RemoveClicked(i) => |s| > 1 && 0 <= i < |s|
    case FieldEdited(i, f, v) => i < |s| && Fits(f, v)
  }

  /**
    The drafts after one action: the list the matching `FormState` handler
    leaves (`AddOrder`, `RemoveOrder`, `UpdateOrder`), or the same list when
    the page does not offer the action.
   */
  function Step(s: seq<OrderDraft>, e: FormEvent): (r: seq<OrderDraft>)
    ensures |s| >= 1 ==> |r| >= 1
  {
    if !Offered(s, e) then s
    else match e
      case AddClicked(today) => s + [DefaultDraft(today)]
      case RemoveClicked(i) => RemovedAt(s, i)
      case FieldEdited(i, f, v) => UpdatedAt(s, i, f, v)
  }

  /** The drafts after the offered actions of `events`, in order. */
  function Replay(s: seq<OrderDraft>, events: seq<FormEvent>): seq<OrderDraft>
    decreases |events|
  {
    if events == [] then s
    else Replay(Step(s, events[0]), events[1..])
  }

  /**
    Starting from the page's single draft, no sequence of offered actions
    empties the list. A finished upload stores its image as a field edit; the
    as-written completion (below) instead puts back the list of an earlier
    render, which has that render's length and so is not empty either.
   */
  lemma {:induction false} DraftsNeverEmpty(s: seq<OrderDraft>, events: seq<FormEvent>)
    requires |s| >= 1
    ensures |Replay(s, events)| >= 1
    decreases |events|
  {
    if events != [] {
      DraftsNeverEmpty(Step(s, events[0]), events[1..]);
    }
  }

  // ---------------------------------------------------------------------
  // Finding: an upload completes against the drafts of an earlier render
  // ---------------------------------------------------------------------

  /**
    As written, the `img.onload` callback calls the `updateOrder` of the
    render in which the upload began, so the new list is built from that
    render's drafts (`snapshot`) and whatever `current` holds by then is
    discarded.
   */
  function UploadCompletionAsWritten(snapshot: seq<OrderDraft>, current: seq<OrderDraft>, index: nat, encoded: string): (r: seq<OrderDraft>)
    requires index < |snapshot|
    ensures |r| == |snapshot| && r[index].imageUrl == Some(encoded)
    ensures forall j :: 0 <= j < |snapshot| && j != index ==> r[j] == snapshot[j]
    ensures forall g :: g != KeyImageUrl ==> Get(r[index], g) == Get(snapshot[index], g)
  {
    UpdatedAt(snapshot, index, KeyImageUrl, Image(Some(encoded)))
  }

  /**
    Two ways the as-written completion loses work: a customer name typed while
    the image was processed, and the image of a second upload started before
    the first one finished.
   */
  lemma UploadCompletionLosesEdits()
    ensures var snapshot := [DefaultDraft("2025-02-06"), DefaultDraft("2025-02-06")];
            var typed := UpdatedAt(snapshot, 0, KeyCustomerName, Text("Anna"));
            UploadCompletionAsWritten(snapshot, typed, 0, "data:image/jpeg;base64,A")[0].customerName == ""
    ensures var snapshot := [DefaultDraft("2025-02-06"), DefaultDraft("2025-02-06")];
            var first := UploadCompletionAsWritten(snapshot, snapshot, 0, "data:image/jpeg;base64,A");
            UploadCompletionAsWritten(snapshot, first, 1, "data:image/jpeg;base64,B")[0].imageUrl == None
  {
  }
}
