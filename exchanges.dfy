/** The exchanges screen: the registration form, the record it submits, the status
    choices and the history sorted by date. */
module Exchanges {
  import opened Records
  import App
  import Sorting

  const ExchangeReasons: seq<string> :=
    ["Defeito de fabricação", "Tamanho/Modelo incorreto", "Não gostei do produto", "Outro motivo"]

  /** The status select's options, in order. */
  const StatusOptions: seq<ExchangeStatus> := [Pendente, Concluida, Cancelada]

  /** The text each status is stored and shown as. */
  function StatusText(s: ExchangeStatus): string
  {
    match s
    case Pendente => "Pendente"
    case Concluida => "Concluída"
    case Cancelada => "Cancelada"
  }

  /** `formData`. */
  datatype ExchangeForm = ExchangeForm(saleId: string, reason: string, description: string, status: ExchangeStatus)

  /** The named inputs of the form. */
  datatype FormField = SaleIdField | ReasonField | DescriptionField

  function InitialForm(): (f: ExchangeForm)
    ensures f.saleId == "" && f.reason == ExchangeReasons[0] && f.description == "" && f.status == Pendente
  {
    ExchangeForm("", ExchangeReasons[0], "", Pendente)
  }

  /** `handleChange`: `{ ...prev, [name]: value }`. */
  function ChangeField(form: ExchangeForm, field: FormField, value: string): (r: ExchangeForm)
    ensures r.status == form.status
    ensures r.saleId == (if field == SaleIdField then value else form.saleId)
    ensures r.reason == (if field == ReasonField then value else form.reason)
    ensures r.description == (if field == DescriptionField then value else form.description)
  {
    match field
    case SaleIdField => form.(saleId := value)
    case ReasonField => form.(reason := value)
    case DescriptionField => form.(description := value)
  }

  /** `{ ...formData, date }`: the record submitted. */
  function NewExchange(form: ExchangeForm, date: int): (e: ExchangeInfo)
    ensures e.saleId == form.saleId && e.reason == form.reason && e.description == form.description
    ensures e.status == form.status && e.date == date
  {
    ExchangeInfo(form.saleId, form.reason, form.description, form.status, date)
  }

  /** No input edits the status, so whatever is typed, a submitted exchange starts as
      'Pendente'. The sale id is taken as typed, without looking it up. */
  lemma SubmittedExchangeIsPending(edits: seq<(FormField, string)>, date: int)
    ensures NewExchange(ApplyEdits(InitialForm(), edits), date).status == Pendente
  {
    EditsKeepStatus(InitialForm(), edits);
  }

  /** The form after a sequence of `handleChange` calls. */
  function ApplyEdits(form: ExchangeForm, edits: seq<(FormField, string)>): ExchangeForm
    decreases |edits|
  {
    if edits == [] then form
    else ApplyEdits(ChangeField(form, edits[0].0, edits[0].1), edits[1..])
  }

  lemma {:induction false} EditsKeepStatus(form: ExchangeForm, edits: seq<(FormField, string)>)
    ensures ApplyEdits(form, edits).status == form.status
    decreases |edits|
  {
    if edits != [] {
      EditsKeepStatus(ChangeField(form, edits[0].0, edits[0].1), edits[1..]);
    }
  }

  /** Every status is offered, so any status may follow any other. */
  lemma EveryStatusOffered(s: ExchangeStatus)
    ensures s in StatusOptions
  {
  }

  function DateKey(e: Exchange): int { e.info.date }

  class ExchangesScreen {
    const app: App.AppProvider
    var form: ExchangeForm
    var showForm: bool

    constructor (app: App.AppProvider)
      ensures this.app == app && form == InitialForm() && !showForm
    {
      this.app := app;
      form := InitialForm();
      showForm := false;
    }

    /** The button that shows or hides the form. */
    method ToggleForm()
      modifies this`showForm
      ensures showForm == !old(showForm)
    {
      showForm := !showForm;
    }

    /** `handleChange(e)` for the input named `field`. */
    method HandleChange(field: FormField, value: string)
      modifies this`form
      ensures form == ChangeField(old(form), field, value)
    {
      form := ChangeField(form, field, value);
    }

    /** `handleSubmit`: register the exchange, then reset and hide the form whatever the
        store answered (the registration is not awaited). */
    method HandleSubmit(date: int, writeFails: bool)
      requires app.db.Valid()
      modifies this`form, this`showForm, app`db
      ensures app.db.Valid()
      ensures app.db.exchanges == if writeFails then old(app.db.exchanges)
        else old(app.db.exchanges).Add(Exchange(old(app.db.exchanges.nextKey), NewExchange(old(form), date)))
      ensures form == InitialForm() && !showForm
    {
      app.AddExchange(NewExchange(form, date), writeFails);
      form := InitialForm();
      showForm := false;
    }

    /** `handleStatusChange(id, newStatus)` from the history table. */
    method HandleStatusChange(id: int, newStatus: ExchangeStatus, writeFails: bool)
      requires app.db.Valid()
      modifies app`db
      ensures app.db.Valid()
      ensures app.db.exchanges == if id in old(app.db.exchanges.rows) && !writeFails
        then old(app.db.exchanges).Put(id, App.WithStatus(old(app.db.exchanges.rows[id]), newStatus))
        else old(app.db.exchanges)
    {
      app.UpdateExchange(id, newStatus, writeFails);
    }

    /** `exchanges.sort((a, b) => new Date(b.date) - new Date(a.date))`, in place. */
    method History(exchanges: array<Exchange>)
      modifies exchanges
      ensures multiset(exchanges[..]) == old(multiset(exchanges[..]))
      ensures Sorting.SortedDesc(exchanges[..], DateKey)
    {
      Sorting.SortDescending(exchanges, DateKey);
    }
  }
}
