/** app/contas-pagar/page.tsx: the payables page. It talks to the API routes:
    a save sends the whole record assembled from the form (PUT when editing,
    POST otherwise), marking as paid sends the record with its status and
    payment date changed, and the list is reloaded after each.

    `parseFloat` and `Number.prototype.toString` on amounts are parameters
    (`parse`, `show`); "now" is a parameter as an ISO timestamp and, for the
    status colour, as a point in time (`hoje`) with `time` placing a due date
    on the same line. */
module ContasPagar {
  import opened Wrappers
  import opened Text
  import opened Seqs
  import opened Types
  import opened Badges

  /** The form: every field is text. */
  datatype ContaPagarForm = ContaPagarForm(
    descricao: string, valor: string, dataVencimento: string, fornecedor: string,
    categoria: string, projetoId: string, observacoes: string)

  function FormVazio(): ContaPagarForm {
    ContaPagarForm("", "", "", "", "", "", "")
  }

  /** The request a handler sends: `PUT /api/contas-pagar/{id}` or
      `POST /api/contas-pagar`, with the record as body. */
  datatype Request = Put(id: string, conta: ContaPagar) | Post(conta: ContaPagar)

  /** The payable being edited, looked up in the loaded list. */
  function Existing(contas: seq<ContaPagar>, editingId: Option<string>): Option<ContaPagar> {
    if Truthy(editingId) then FindByKey(contas, ContaPagarId, editingId.value) else None
  }

  /** The record `handleSubmit` assembles. A new payable gets the fresh id, is
      pending and unpaid; an edited one keeps the id, status and payment date
      it had in the list. Either way `createdAt` is now, and an empty project
      or note becomes absent. */
  function AssembleConta(f: ContaPagarForm, editingId: Option<string>, contas: seq<ContaPagar>,
                         newId: string, now: string, parse: string -> real): (c: ContaPagar)
    ensures c.id == if Truthy(editingId) then editingId.value else newId
    ensures var e := Existing(contas, editingId);
            && (e.Some? ==> c.status == e.value.status && c.dataPagamento == e.value.dataPagamento)
            && (e.None? ==> c.status == Pendente && c.dataPagamento.None?)
    ensures c.createdAt == now
    ensures c.projetoId == OrNone(f.projetoId) && c.observacoes == OrNone(f.observacoes)
    ensures c.descricao == f.descricao && c.valor == parse(f.valor) && c.dataVencimento == f.dataVencimento
            && c.fornecedor == f.fornecedor && c.categoria == f.categoria
  {
    var existing := Existing(contas, editingId);
    ContaPagar(
      if Truthy(editingId) then editingId.value else newId,
      f.descricao, parse(f.valor), f.dataVencimento,
      if existing.Some? then existing.value.dataPagamento else None,
      if existing.Some? then existing.value.status else Pendente,
      f.fornecedor, f.categoria, OrNone(f.projetoId), OrNone(f.observacoes), now)
  }

  /** `handleSubmit`'s request: PUT to the edited id, or POST. */
  function SubmitRequest(f: ContaPagarForm, editingId: Option<string>, contas: seq<ContaPagar>,
                         newId: string, now: string, parse: string -> real): (r: Request)
    ensures r.Put? <==> Truthy(editingId)
    ensures r.Put? ==> r.id == editingId.value && r.conta.id == r.id
    ensures r.conta == AssembleConta(f, editingId, contas, newId, now, parse)
  {
    var conta := AssembleConta(f, editingId, contas, newId, now, parse);
    if Truthy(editingId) then Put(editingId.value, conta) else Post(conta)
  }

  /** `handleEdit`: the form shows the record; the due date loses its time
      part, an absent project or note shows as empty text. */
  function EditForm(c: ContaPagar, show: real -> string): (f: ContaPagarForm)
    ensures f.dataVencimento == DatePart(c.dataVencimento) && 'T' !in f.dataVencimento
    ensures StartsWith(c.dataVencimento, f.dataVencimento)
    ensures f.projetoId == OrEmpty(c.projetoId) && f.observacoes == OrEmpty(c.observacoes)
    ensures f.descricao == c.descricao && f.valor == show(c.valor)
            && f.fornecedor == c.fornecedor && f.categoria == c.categoria
  {
    ContaPagarForm(c.descricao, show(c.valor), DatePart(c.dataVencimento), c.fornecedor,
                   c.categoria, OrEmpty(c.projetoId), OrEmpty(c.observacoes))
  }

  /** A new payable is sent as a POST with the fresh id, pending and unpaid. */
  lemma NewContaIsPendente(f: ContaPagarForm, editingId: Option<string>, contas: seq<ContaPagar>,
                           newId: string, now: string, parse: string -> real)
    requires !Truthy(editingId)
    ensures var r := SubmitRequest(f, editingId, contas, newId, now, parse);
            r.Post? && r.conta.id == newId && r.conta.status == Pendente && r.conta.dataPagamento.None?
  {
  }

  /** Editing a payable and saving without changes sends it back with the due
      date cut to its date part, empty project and note dropped, and
      `createdAt` reset to now; its status and payment date are kept. */
  lemma EditThenSubmit(c: ContaPagar, contas: seq<ContaPagar>, newId: string, now: string,
                       parse: string -> real, show: real -> string)
    requires c.id != ""
    requires FindByKey(contas, ContaPagarId, c.id) == Some(c)
    requires parse(show(c.valor)) == c.valor
    ensures SubmitRequest(EditForm(c, show), Some(c.id), contas, newId, now, parse)
            == Put(c.id, c.(dataVencimento := DatePart(c.dataVencimento),
                            projetoId := Normalized(c.projetoId), observacoes := Normalized(c.observacoes),
                            createdAt := now))
  {
    OrNoneOrEmpty(c.projetoId);
    OrNoneOrEmpty(c.observacoes);
  }

  /** `handleMarcarPaga`: nothing for an id that is not in the list;
      otherwise a PUT of the first payable with that id, paid today, with
      every other field as it was. */
  function MarcarPaga(contas: seq<ContaPagar>, id: string, nowIso: string): (r: Option<Request>)
    ensures r.None? <==> forall i :: 0 <= i < |contas| ==> contas[i].id != id
    ensures r.Some? ==> var c := contas[IndexOfKey(contas, ContaPagarId, id)];
                        r.value == Put(id, c.(status := Paga, dataPagamento := Some(DatePart(nowIso))))
  {
    match FindByKey(contas, ContaPagarId, id)
    case None => None
    case Some(c) => Some(Put(id, c.(status := Paga, dataPagamento := Some(DatePart(nowIso)))))
  }

  /** The mark-paid button is shown for every payable not yet paid: exactly
      the rows whose status badge is not green, whatever the day. */
  predicate PodeMarcarPaga(c: ContaPagar): (b: bool)
    ensures forall hoje, time :: b <==> StatusColor(c.status, c.dataVencimento, hoje, time) != Verde
  {
    c.status != Paga
  }

  /** After marking a payable as paid it counts as paid, carries a payment
      date, and the mark-paid button is gone. */
  lemma MarcarPagaSettles(contas: seq<ContaPagar>, id: string, nowIso: string)
    requires MarcarPaga(contas, id, nowIso).Some?
    ensures var c := MarcarPaga(contas, id, nowIso).value.conta;
            && c.status == Paga && c.dataPagamento.Some? && !PodeMarcarPaga(c)
            && c.id == id && 'T' !in c.dataPagamento.value
  {
  }

  /** `getStatusColor`: green when paid, red when overdue by status or by
      date (a due date before now), yellow otherwise. */
  function StatusColor(status: StatusConta, dataVencimento: string, hoje: int, time: string -> int): (b: Badge)
    ensures b == Verde <==> status == Paga
    ensures b == Vermelho <==> status == Vencida || (status != Paga && time(dataVencimento) < hoje)
    ensures b == Amarelo <==> status != Paga && status != Vencida && time(dataVencimento) >= hoje
  {
    if status == Paga then Verde
    else if status == Vencida then Vermelho
    else if time(dataVencimento) < hoje then Vermelho
    else Amarelo
  }

  /** The page's state: the loaded payables, the form, and the id being
      edited. */
  class ContasPagarPage {
    var contas: seq<ContaPagar>
    var form: ContaPagarForm
    var editingId: Option<string>
    var showForm: bool

    constructor ()
      ensures contas == [] && form == FormVazio() && editingId.None? && !showForm
    {
      contas, form, editingId, showForm := [], FormVazio(), None, false;
    }

    method HandleEdit(c: ContaPagar, show: real -> string)
      modifies this
      ensures editingId == Some(c.id) && form == EditForm(c, show) && showForm
      ensures contas == old(contas)
    {
      editingId := Some(c.id);
      form := EditForm(c, show);
      showForm := true;
    }

    /** The list the reload reads; `None` when the API answers with an
        error, which leaves the list as it was. */
    method Reload(reloaded: Option<seq<ContaPagar>>)
      modifies this`contas
      ensures contas == if reloaded.Some? then reloaded.value else old(contas)
    {
      if reloaded.Some? {
        contas := reloaded.value;
      }
    }

    /** `handleSubmit`: sends the request, resets the form, reloads. */
    method HandleSubmit(newId: string, now: string, parse: string -> real,
                        reloaded: Option<seq<ContaPagar>>) returns (r: Request)
      modifies this
      ensures r == SubmitRequest(old(form), old(editingId), old(contas), newId, now, parse)
      ensures form == FormVazio() && editingId.None? && !showForm
      ensures contas == if reloaded.Some? then reloaded.value else old(contas)
    {
      r := SubmitRequest(form, editingId, contas, newId, now, parse);
      form, editingId, showForm := FormVazio(), None, false;
      Reload(reloaded);
    }

    /** `handleMarcarPaga`: for an id that is not loaded nothing is sent and
        nothing is reloaded. */
    method HandleMarcarPaga(id: string, nowIso: string, reloaded: Option<seq<ContaPagar>>)
      returns (r: Option<Request>)
      modifies this`contas
      ensures r == MarcarPaga(old(contas), id, nowIso)
      ensures r.None? ==> contas == old(contas)
      ensures r.Some? ==> contas == if reloaded.Some? then reloaded.value else old(contas)
    {
      r := MarcarPaga(contas, id, nowIso);
      if r.Some? {
        Reload(reloaded);
      }
    }
  }
}
