/** app/contas-receber/page.tsx: the receivables page. It works on the local
    store: the list is read and sorted by due date, a save updates the edited
    receivable with the assembled record or appends a new one, marking as
    received patches two fields, and a confirmed delete removes by id. After
    each change the list is read again.

    `parseFloat` and `toString` on amounts are parameters (`parse`, `show`);
    "now" is a parameter as an ISO timestamp and, for the status colour, as a
    point in time (`hoje`); `time` places a date string on that line. */
module ContasReceber {
  import opened Wrappers
  import opened Text
  import opened Seqs
  import opened Types
  import opened Badges
  import opened Storage
  import Reports

  /** The form: every field is text. */
  datatype ContaReceberForm = ContaReceberForm(
    descricao: string, valor: string, dataVencimento: string, cliente: string,
    categoria: string, projetoId: string, observacoes: string)

  function FormVazio(): ContaReceberForm {
    ContaReceberForm("", "", "", "", "", "", "")
  }

  /** The sort key of `loadContas`: the due date's time. */
  function Vencimento(time: string -> int): ContaReceber -> int {
    (c: ContaReceber) => time(c.dataVencimento)
  }

  /** `loadContas`: the stored receivables, ordered by ascending due date. */
  function LoadedContas(stored: seq<ContaReceber>, time: string -> int): (r: seq<ContaReceber>)
    ensures SortedBy(r, Vencimento(time))
    ensures multiset(r) == multiset(stored)
  {
    SortBy(stored, Vencimento(time))
  }

  /** The `createdAt` of a save: when editing, that of the receivable found in
      the list if it is non-empty, otherwise now. */
  function CreatedAt(contas: seq<ContaReceber>, editingId: Option<string>, now: string): (r: string)
    ensures var e := if Truthy(editingId) then FindByKey(contas, ContaReceberId, editingId.value) else None;
            r == if e.Some? && e.value.createdAt != "" then e.value.createdAt else now
  {
    if Truthy(editingId) then
      match FindByKey(contas, ContaReceberId, editingId.value)
      case Some(e) => if e.createdAt != "" then e.createdAt else now
      case None => now
    else now
  }

  /** The record `handleSubmit` assembles: always pending, with no receipt
      date, empty project and note made absent. */
  function AssembleConta(f: ContaReceberForm, editingId: Option<string>, contas: seq<ContaReceber>,
                         newId: string, now: string, parse: string -> real): (c: ContaReceber)
    ensures c.id == if Truthy(editingId) then editingId.value else newId
    ensures c.status == Pendente && c.dataRecebimento.None?
    ensures c.createdAt == CreatedAt(contas, editingId, now)
    ensures c.projetoId == OrNone(f.projetoId) && c.observacoes == OrNone(f.observacoes)
    ensures c.descricao == f.descricao && c.valor == parse(f.valor) && c.dataVencimento == f.dataVencimento
            && c.cliente == f.cliente && c.categoria == f.categoria
  {
    ContaReceber(if Truthy(editingId) then editingId.value else newId, f.descricao, parse(f.valor),
                 f.dataVencimento, None, Pendente, f.cliente, f.categoria, OrNone(f.projetoId),
                 OrNone(f.observacoes), CreatedAt(contas, editingId, now))
  }

  /** The record as a `Partial`: the literal names every key but
      `dataRecebimento`, so a merge keeps the receipt date it finds. */
  function SubmitPatch(c: ContaReceber): (p: ContaReceberPatch)
    ensures p.dataRecebimento.None?
    ensures forall prev :: MergeContaReceber(prev, p) == c.(dataRecebimento := prev.dataRecebimento)
  {
    ContaReceberPatchOf(c).(dataRecebimento := None)
  }

  /** The storage call a handler makes. */
  datatype StorageCall = Update(id: string, patch: ContaReceberPatch) | Save(conta: ContaReceber)

  /** `handleSubmit`: update the edited id with the record, or save it. */
  function SubmitCall(f: ContaReceberForm, editingId: Option<string>, contas: seq<ContaReceber>,
                      newId: string, now: string, parse: string -> real): (r: StorageCall)
    ensures r.Update? <==> Truthy(editingId)
    ensures r.Update? ==> r.id == editingId.value
                          && r.patch == SubmitPatch(AssembleConta(f, editingId, contas, newId, now, parse))
    ensures r.Save? ==> r.conta == AssembleConta(f, editingId, contas, newId, now, parse)
  {
    var conta := AssembleConta(f, editingId, contas, newId, now, parse);
    if Truthy(editingId) then Update(editingId.value, SubmitPatch(conta)) else Save(conta)
  }

  /** The patch of `handleMarcarRecebida`: only `status` and
      `dataRecebimento`. */
  function MarcarRecebidaPatch(nowIso: string): (p: ContaReceberPatch)
    ensures p.status == Some(Recebida) && p.dataRecebimento == Some(Some(DatePart(nowIso)))
    ensures forall c :: MergeContaReceber(c, p) == c.(status := Recebida, dataRecebimento := Some(DatePart(nowIso)))
  {
    ContaReceberPatch(None, None, None, None, Some(Some(DatePart(nowIso))), Some(Recebida),
                      None, None, None, None, None)
  }

  /** Marking as received changes the status and the receipt date (to today)
      and keeps every other field. */
  lemma MarcarRecebidaKeepsTheRest(c: ContaReceber, nowIso: string)
    ensures MergeContaReceber(c, MarcarRecebidaPatch(nowIso))
            == c.(status := Recebida, dataRecebimento := Some(DatePart(nowIso)))
  {
  }

  /** A receivable marked as received today enters the cash flow of any
      interval that holds today. */
  lemma MarcarRecebidaCounts(c: ContaReceber, nowIso: string, iv: Reports.Interval, time: string -> int)
    requires DatePart(nowIso) != ""
    ensures Reports.RecebidaNoPeriodo(iv, time)(MergeContaReceber(c, MarcarRecebidaPatch(nowIso)))
            <==> Reports.Within(time(DatePart(nowIso)), iv)
  {
  }

  /** Editing a received receivable and saving turns it back to pending while
      its receipt date stays, so it no longer counts as received in any cash
      flow; the other fields are those of the form. */
  lemma EditingRecebidaRevertsToPendente(prev: ContaReceber, f: ContaReceberForm, id: string,
                                         contas: seq<ContaReceber>, newId: string, now: string,
                                         parse: string -> real, iv: Reports.Interval, time: string -> int)
    requires id != ""
    ensures var call := SubmitCall(f, Some(id), contas, newId, now, parse);
            var after := MergeContaReceber(prev, call.patch);
            && call.Update?
            && after.status == Pendente && after.dataRecebimento == prev.dataRecebimento
            && !Reports.RecebidaNoPeriodo(iv, time)(after)
  {
  }

  /** The edit form: the due date loses its time part, an absent project or
      note shows as empty text. */
  function EditForm(c: ContaReceber, show: real -> string): (f: ContaReceberForm)
    ensures f.dataVencimento == DatePart(c.dataVencimento)
    ensures f.projetoId == OrEmpty(c.projetoId) && f.observacoes == OrEmpty(c.observacoes)
    ensures f.descricao == c.descricao && f.valor == show(c.valor)
            && f.cliente == c.cliente && f.categoria == c.categoria
  {
    ContaReceberForm(c.descricao, show(c.valor), DatePart(c.dataVencimento), c.cliente, c.categoria,
                     OrEmpty(c.projetoId), OrEmpty(c.observacoes))
  }

  /** Editing a receivable and saving without changes keeps its `createdAt`
      (when it has one) and its receipt date, but makes it pending. */
  lemma EditThenSubmit(c: ContaReceber, contas: seq<ContaReceber>, newId: string, now: string,
                       parse: string -> real, show: real -> string)
    requires c.id != "" && c.createdAt != ""
    requires FindByKey(contas, ContaReceberId, c.id) == Some(c)
    requires parse(show(c.valor)) == c.valor
    ensures var call := SubmitCall(EditForm(c, show), Some(c.id), contas, newId, now, parse);
            && call == Update(c.id, call.patch)
            && MergeContaReceber(c, call.patch)
               == c.(dataVencimento := DatePart(c.dataVencimento), status := Pendente,
                     projetoId := Normalized(c.projetoId), observacoes := Normalized(c.observacoes))
  {
    OrNoneOrEmpty(c.projetoId);
    OrNoneOrEmpty(c.observacoes);
  }

  /** `getStatusColor`: green when received, red when overdue by status or by
      date, yellow otherwise. */
  function StatusColor(status: StatusConta, dataVencimento: string, hoje: int, time: string -> int): (b: Badge)
    ensures b == Verde <==> status == Recebida
    ensures b == Vermelho <==> status == Vencida || (status != Recebida && time(dataVencimento) < hoje)
    ensures b == Amarelo <==> status != Recebida && status != Vencida && time(dataVencimento) >= hoje
  {
    if status == Recebida then Verde
    else if status == Vencida then Vermelho
    else if time(dataVencimento) < hoje then Vermelho
    else Amarelo
  }

  /** The mark-received button is shown for every receivable not yet
      received: exactly the rows whose status badge is not green, whatever
      the day. */
  predicate PodeMarcarRecebida(c: ContaReceber): (b: bool)
    ensures forall hoje, time :: b <==> StatusColor(c.status, c.dataVencimento, hoje, time) != Verde
  {
    c.status != Recebida
  }

  /** After marking a receivable as received it is received, dated today,
      and the mark-received button is gone. */
  lemma MarcarRecebidaSettles(c: ContaReceber, nowIso: string)
    ensures var after := MergeContaReceber(c, MarcarRecebidaPatch(nowIso));
            && after.status == Recebida && after.dataRecebimento == Some(DatePart(nowIso))
            && !PodeMarcarRecebida(after)
  {
  }

  /** The page: the store it works on, the loaded list, the form and the id
      being edited. */
  class ContasReceberPage {
    const storage: StorageService
    var contas: seq<ContaReceber>
    var form: ContaReceberForm
    var editingId: Option<string>
    var showForm: bool

    constructor (storage: StorageService)
      ensures this.storage == storage
      ensures contas == [] && form == FormVazio() && editingId.None? && !showForm
    {
      this.storage := storage;
      contas, form, editingId, showForm := [], FormVazio(), None, false;
    }

    /** `loadContas`. */
    method LoadContas(time: string -> int)
      modifies this`contas
      ensures contas == LoadedContas(storage.GetContasReceber(), time)
    {
      contas := LoadedContas(storage.GetContasReceber(), time);
    }

    method HandleEdit(c: ContaReceber, show: real -> string)
      modifies this`editingId, this`form, this`showForm
      ensures editingId == Some(c.id) && form == EditForm(c, show) && showForm
    {
      editingId := Some(c.id);
      form := EditForm(c, show);
      showForm := true;
    }

    /** `handleSubmit`: the storage call, a form reset and a reload. */
    method HandleSubmit(newId: string, now: string, parse: string -> real, time: string -> int)
      returns (call: StorageCall)
      modifies this`contas, this`form, this`editingId, this`showForm, storage`contasReceber
      ensures call == SubmitCall(old(form), old(editingId), old(contas), newId, now, parse)
      ensures storage.contasReceber ==
                if !storage.hasWindow then old(storage.contasReceber)
                else if call.Update? then UpdateFirst(old(storage.contasReceber), ContaReceberId, call.id,
                                                      MergeContaReceber, call.patch)
                else old(storage.contasReceber) + [call.conta]
      ensures form == FormVazio() && editingId.None? && !showForm
      ensures contas == LoadedContas(storage.GetContasReceber(), time)
    {
      call := SubmitCall(form, editingId, contas, newId, now, parse);
      if call.Update? {
        storage.UpdateContaReceber(call.id, call.patch);
      } else {
        storage.SaveContaReceber(call.conta);
      }
      form, editingId, showForm := FormVazio(), None, false;
      LoadContas(time);
    }

    /** `handleDelete`: only when the user confirms. */
    method HandleDelete(id: string, confirmed: bool, time: string -> int)
      modifies this`contas, storage`contasReceber
      ensures !confirmed ==> contas == old(contas) && storage.contasReceber == old(storage.contasReceber)
      ensures confirmed ==>
                && storage.contasReceber == (if storage.hasWindow
                                             then RemoveId(old(storage.contasReceber), ContaReceberId, id)
                                             else old(storage.contasReceber))
                && contas == LoadedContas(storage.GetContasReceber(), time)
    {
      if confirmed {
        storage.DeleteContaReceber(id);
        LoadContas(time);
      }
    }

    /** `handleMarcarRecebida`: nothing for an id that is not in the loaded
        list; otherwise the two-field patch and a reload. */
    method HandleMarcarRecebida(id: string, nowIso: string, time: string -> int)
      modifies this`contas, storage`contasReceber
      ensures FindByKey(old(contas), ContaReceberId, id).None? ==>
                contas == old(contas) && storage.contasReceber == old(storage.contasReceber)
      ensures FindByKey(old(contas), ContaReceberId, id).Some? ==>
                && storage.contasReceber == (if storage.hasWindow
                                             then UpdateFirst(old(storage.contasReceber), ContaReceberId, id,
                                                              MergeContaReceber, MarcarRecebidaPatch(nowIso))
                                             else old(storage.contasReceber))
                && contas == LoadedContas(storage.GetContasReceber(), time)
    {
      var conta := FindByKey(contas, ContaReceberId, id);
      if conta.Some? {
        storage.UpdateContaReceber(id, MarcarRecebidaPatch(nowIso));
        LoadContas(time);
      }
    }
  }
}
