/**
 * The admin product page: a form filled from a product (to edit it or to
 * advance its status) or blank (to create one), saved through the mock
 * product service. Date fields are datetime-local inputs; the model holds
 * such a field as the minute count of its wall-clock reading since
 * 1970-01-01T00:00, the empty field as None. The page fills a field with
 * the UTC reading of a time and saves it by reading the field as local
 * time, so every save moves the times by the browser's zone offset.
 */
module AdminProductPage {
  import opened Common
  import MockProducts

  datatype Form = Form(
    title: string, description: string, basePrice: real, k: int,
    startTime: Option<int>, endTime: Option<int>,
    alpha: real, beta: real, gamma: real, status: ProductStatus)

  const MinuteMs: int := 60000

  /** The form handleCreate sets, which is also the form the page starts with. */
  const BlankForm := Form("", "", 0.0, 0, None, None, 1.0, 0.5, 0.3, NotStarted)

  /** handleStatusChange: not_started, then active, then ended, then not_started again. */
  function NextStatus(s: ProductStatus): (n: ProductStatus)
    ensures n != s
  {
    match s
    case NotStarted => Active
    case Active => Ended
    case Ended => NotStarted
  }

  /** Three status changes come back to the start, passing through every status. */
  lemma NextStatusCycle(s: ProductStatus)
    ensures NextStatus(NextStatus(NextStatus(s))) == s
    ensures NextStatus(NextStatus(s)) != s && NextStatus(NextStatus(s)) != NextStatus(s)
  {
  }

  /** `x || d` for an optional coefficient: a missing one and 0 are both falsy. */
  function OrDefault(x: Option<real>, d: real): (r: real)
    ensures x.Some? && x.value != 0.0 ==> r == x.value
    ensures x.None? || x.value == 0.0 ==> r == d
  {
    if x.Some? && x.value != 0.0 then x.value else d
  }

  /** `new Date(t).toISOString().slice(0, 16)`: the UTC wall-clock minute of t. */
  function UtcMinute(t: int): int
  {
    t / MinuteMs
  }

  /**
   * `new Date(field).getTime()` as written: a datetime-local text has no
   * zone, so it is read as local time, `offset` minutes east of UTC.
   */
  function FieldTimeAsWritten(m: int, offset: int): int
  {
    (m - offset) * MinuteMs
  }

  /** As written, saving a form filled from a product moves its times by the zone offset. */
  lemma FieldTimeAsWrittenShifts(t: int, offset: int)
    ensures FieldTimeAsWritten(UtcMinute(t), offset) == FieldTime(UtcMinute(t)) - offset * MinuteMs
    ensures t % MinuteMs == 0 && offset != 0 ==> FieldTimeAsWritten(UtcMinute(t), offset) != t
  {
    assert (UtcMinute(t) - offset) * MinuteMs == UtcMinute(t) * MinuteMs - offset * MinuteMs;
  }

  /** The field read as the UTC reading it was filled with, as evidently intended. */
  function FieldTime(m: int): int
  {
    m * MinuteMs
  }

  /**
   * Filling a field from a time and reading it back loses only the seconds
   * and milliseconds, so a time on a whole minute comes back unchanged; a
   * field read and refilled is the same field.
   */
  lemma FieldTimeRoundTrip(t: int, m: int)
    ensures FieldTime(UtcMinute(t)) <= t < FieldTime(UtcMinute(t)) + MinuteMs
    ensures t % MinuteMs == 0 ==> FieldTime(UtcMinute(t)) == t
    ensures UtcMinute(FieldTime(m)) == m
  {
  }

  /**
   * handleEdit and handleStatusChange: the product's fields, its times as
   * UTC minutes, falsy coefficients replaced by 1.0, 0.5 and 0.3, and the
   * given status.
   */
  function FormOf(p: MockProducts.Product, status: ProductStatus): (f: Form)
    ensures f.title == p.title && f.description == p.description && f.basePrice == p.basePrice && f.k == p.k
    ensures f.startTime == Some(UtcMinute(p.startTime)) && f.endTime == Some(UtcMinute(p.endTime))
    ensures f.alpha == OrDefault(p.alpha, 1.0) && f.beta == OrDefault(p.beta, 0.5) && f.gamma == OrDefault(p.gamma, 0.3)
    ensures f.status == status
  {
    Form(p.title, p.description, p.basePrice, p.k, Some(UtcMinute(p.startTime)), Some(UtcMinute(p.endTime)),
         OrDefault(p.alpha, 1.0), OrDefault(p.beta, 0.5), OrDefault(p.gamma, 0.3), status)
  }

  /** A form whose date fields are filled. */
  predicate Dated(f: Form)
  {
    f.startTime.Some? && f.endTime.Some?
  }

  /**
   * What handleSave hands createProduct, in a browser `offset` minutes east
   * of UTC: every field but the status, the times read as local time.
   */
  function CreateInput(f: Form, offset: int): (input: MockProducts.NewProduct)
    requires Dated(f)
    ensures input.title == f.title && input.description == f.description
    ensures input.basePrice == f.basePrice && input.k == f.k
    ensures input.startTime == FieldTime(f.startTime.value) - offset * MinuteMs
    ensures input.endTime == FieldTime(f.endTime.value) - offset * MinuteMs
    ensures input.alpha == Some(f.alpha) && input.beta == Some(f.beta) && input.gamma == Some(f.gamma)
  {
    FieldTimeAsWrittenShifts(f.startTime.value * MinuteMs, offset);
    FieldTimeAsWrittenShifts(f.endTime.value * MinuteMs, offset);
    MockProducts.NewProduct(f.title, f.description, f.basePrice, f.k,
                            FieldTimeAsWritten(f.startTime.value, offset), FieldTimeAsWritten(f.endTime.value, offset),
                            Some(f.alpha), Some(f.beta), Some(f.gamma))
  }

  /** Creating never sends the form's status: the new product's status is the one creation computes. */
  lemma CreateIgnoresFormStatus(f: Form, s: ProductStatus, now: int, offset: int)
    requires Dated(f)
    ensures MockProducts.NewProductRecord(CreateInput(f.(status := s), offset), now)
            == MockProducts.NewProductRecord(CreateInput(f, offset), now)
    ensures MockProducts.NewProductRecord(CreateInput(f, offset), now).status
            == MockProducts.CreatedStatus(FieldTime(f.startTime.value) - offset * MinuteMs,
                                          FieldTime(f.endTime.value) - offset * MinuteMs, now)
  {
  }

  /**
   * What handleSave hands updateProduct, in a browser `offset` minutes east
   * of UTC: every form field, the status always included, the times read as
   * local time.
   */
  function UpdatePatch(f: Form, offset: int): (u: MockProducts.Patch)
    requires Dated(f)
    ensures u.id.None? && u.currentHighestPrice.None?
    ensures u.title == Some(f.title) && u.description == Some(f.description)
    ensures u.basePrice == Some(f.basePrice) && u.k == Some(f.k) && u.status == Some(f.status)
    ensures u.startTime == Some(FieldTime(f.startTime.value) - offset * MinuteMs)
    ensures u.endTime == Some(FieldTime(f.endTime.value) - offset * MinuteMs)
    ensures u.alpha == Some(f.alpha) && u.beta == Some(f.beta) && u.gamma == Some(f.gamma)
  {
    FieldTimeAsWrittenShifts(f.startTime.value * MinuteMs, offset);
    FieldTimeAsWrittenShifts(f.endTime.value * MinuteMs, offset);
    MockProducts.Patch(None, Some(f.title), Some(f.description), Some(f.basePrice), Some(f.k),
                       Some(FieldTimeAsWritten(f.startTime.value, offset)), Some(FieldTimeAsWritten(f.endTime.value, offset)),
                       Some(f.status), None, Some(f.alpha), Some(f.beta), Some(f.gamma))
  }

  /**
   * Opening a product for editing and saving at once, as written, keeps
   * every field but the times and what the form normalises: falsy
   * coefficients become their defaults, and each time drops to the whole
   * minute and moves back by the zone offset. Only in a browser on UTC
   * (offset 0, where the local reading is the UTC reading the field was
   * filled with) does a whole-minute product with set coefficients come
   * back unchanged; elsewhere its times move on every save. Saving a status
   * change moves the status one step and nothing else.
   */
  lemma EditSaveKeepsProduct(p: MockProducts.Product, offset: int)
    ensures var q := MockProducts.ApplyPatch(p, UpdatePatch(FormOf(p, p.status), offset));
            && q.id == p.id && q.title == p.title && q.description == p.description
            && q.basePrice == p.basePrice && q.k == p.k && q.status == p.status
            && q.currentHighestPrice == p.currentHighestPrice
            && q.startTime == FieldTime(UtcMinute(p.startTime)) - offset * MinuteMs
            && q.endTime == FieldTime(UtcMinute(p.endTime)) - offset * MinuteMs
            && q.alpha == Some(OrDefault(p.alpha, 1.0)) && q.beta == Some(OrDefault(p.beta, 0.5))
            && q.gamma == Some(OrDefault(p.gamma, 0.3))
    ensures offset == 0 && p.startTime % MinuteMs == 0 && p.endTime % MinuteMs == 0
            && p.alpha.Some? && p.alpha.value != 0.0 && p.beta.Some? && p.beta.value != 0.0
            && p.gamma.Some? && p.gamma.value != 0.0 ==>
              MockProducts.ApplyPatch(p, UpdatePatch(FormOf(p, p.status), offset)) == p
    ensures offset != 0 && p.startTime % MinuteMs == 0 ==>
              MockProducts.ApplyPatch(p, UpdatePatch(FormOf(p, p.status), offset)).startTime != p.startTime
    ensures MockProducts.ApplyPatch(p, UpdatePatch(FormOf(p, NextStatus(p.status)), offset))
            == MockProducts.ApplyPatch(p, UpdatePatch(FormOf(p, p.status), offset)).(status := NextStatus(p.status))
  {
    FieldTimeRoundTrip(p.startTime, 0);
    FieldTimeRoundTrip(p.endTime, 0);
  }

  /**
   * The page's state. `svc` is the mock product service it saves through;
   * `offset` is the browser's zone offset in minutes east of UTC.
   */
  class Page {
    const svc: MockProducts.Service
    const offset: int
    var products: seq<MockProducts.Product>
    var editing: Option<MockProducts.Product>
    var creating: bool
    var statusChange: bool
    var form: Form

    /** The page as mounted: the list loaded, nothing open, the blank form. */
    constructor(svc: MockProducts.Service, offset: int)
      ensures this.svc == svc && this.offset == offset && products == svc.products
      ensures editing.None? && !creating && !statusChange && form == BlankForm
    {
      this.svc := svc;
      this.offset := offset;
      products := svc.products;
      editing, creating, statusChange := None, false, false;
      form := BlankForm;
    }

    /** handleEdit. */
    method HandleEdit(p: MockProducts.Product)
      modifies this
      ensures editing == Some(p) && !creating && !statusChange && form == FormOf(p, p.status)
      ensures products == old(products)
    {
      editing, creating, statusChange := Some(p), false, false;
      form := FormOf(p, p.status);
    }

    /** handleCreate. */
    method HandleCreate()
      modifies this
      ensures editing.None? && creating && !statusChange && form == BlankForm
      ensures products == old(products)
    {
      editing, creating, statusChange := None, true, false;
      form := BlankForm;
    }

    /** handleStatusChange: the product opened with the next status in the form. */
    method HandleStatusChange(p: MockProducts.Product)
      modifies this
      ensures editing == Some(p) && !creating && statusChange && form == FormOf(p, NextStatus(p.status))
      ensures form.status != p.status
      ensures products == old(products)
    {
      editing, creating, statusChange := Some(p), false, true;
      form := FormOf(p, NextStatus(p.status));
    }

    /** An input's onChange: the form takes the typed values. */
    method ChangeForm(f: Form)
      modifies this
      ensures form == f
      ensures editing == old(editing) && creating == old(creating) && statusChange == old(statusChange)
      ensures products == old(products)
    {
      form := f;
    }

    /** The cancel button: nothing is open any more; the form keeps its values. */
    method Cancel()
      modifies this
      ensures editing.None? && !creating && !statusChange && form == old(form)
      ensures products == old(products)
    {
      editing, creating, statusChange := None, false, false;
    }

    /**
     * handleSave: create from the form, or update the product being
     * edited with it, the date fields read as local time; then reload the
     * list and close the form. `now` is the clock reading createProduct
     * takes.
     */
    method HandleSave(now: int)
      requires svc.Valid()
      requires creating || editing.Some? ==> Dated(form)
      modifies this, svc
      ensures svc.Valid()
      ensures old(creating) ==>
                svc.products == old(svc.products) + [MockProducts.NewProductRecord(CreateInput(old(form), offset), now)]
      ensures !old(creating) && old(editing).Some? ==>
                var i := MockProducts.FindIndex(old(svc.products), old(editing).value.id);
                && (i.None? ==> svc.products == old(svc.products))
                && (i.Some? ==> svc.products == old(svc.products)[i.value := MockProducts.ApplyPatch(old(svc.products)[i.value], UpdatePatch(old(form), offset))])
      ensures !old(creating) && old(editing).None? ==> svc.products == old(svc.products)
      ensures !old(creating) ==> svc.rankings == old(svc.rankings)
      ensures svc.results == old(svc.results)
      ensures products == svc.products && editing.None? && !creating && !statusChange && form == old(form)
    {
      if creating {
        var _ := svc.CreateProduct(CreateInput(form, offset), now);
      } else if editing.Some? {
        var _ := svc.UpdateProduct(editing.value.id, UpdatePatch(form, offset));
      }
      products := svc.products;
      editing, creating, statusChange := None, false, false;
    }
  }
}
