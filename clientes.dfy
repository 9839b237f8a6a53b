/** app/clientes/page.tsx: the client register. A `clientes` row maps to a
    client record (null columns become absent fields), the search box
    filters the list, editing fills the form from a record (absent fields
    become empty strings), and saving turns the form back into a row
    payload (empty strings become null) that updates the edited row or is
    inserted as a new one.

    types/index.ts does not declare `Cliente`; its fields here are the ones
    `mapClienteFromDb` builds. */
module Clientes {
  import opened Wrappers
  import opened Text
  import opened Seqs

  datatype TipoPessoa = Pf | Pj

  /** A `clientes` row; a nullable column holds `None` for null. */
  datatype DbCliente = DbCliente(
    id: string, tenantId: string, tipoPessoa: TipoPessoa, nome: string,
    razaoSocial: Option<string>, nomeFantasia: Option<string>, cpfCnpj: Option<string>,
    inscricaoEstadual: Option<string>, inscricaoMunicipal: Option<string>, email: Option<string>,
    telefone: Option<string>, cep: Option<string>, logradouro: Option<string>, numero: Option<string>,
    complemento: Option<string>, bairro: Option<string>, cidade: Option<string>, uf: Option<string>,
    pais: Option<string>, observacoes: Option<string>, createdAt: string)

  /** A client as the page holds it; an absent field is `None`. */
  datatype Cliente = Cliente(
    id: string, nome: string, tipoPessoa: TipoPessoa,
    razaoSocial: Option<string>, nomeFantasia: Option<string>, cpfCnpj: Option<string>,
    inscricaoEstadual: Option<string>, inscricaoMunicipal: Option<string>, email: Option<string>,
    telefone: Option<string>, cep: Option<string>, logradouro: Option<string>, numero: Option<string>,
    complemento: Option<string>, bairro: Option<string>, cidade: Option<string>, uf: Option<string>,
    pais: Option<string>, observacoes: Option<string>, createdAt: string)

  /** The form: every field is text. */
  datatype ClienteForm = ClienteForm(
    tipoPessoa: TipoPessoa, nome: string,
    razaoSocial: string, nomeFantasia: string, cpfCnpj: string, inscricaoEstadual: string,
    inscricaoMunicipal: string, email: string, telefone: string, cep: string, logradouro: string,
    numero: string, complemento: string, bairro: string, cidade: string, uf: string,
    pais: string, observacoes: string)

  /** The `Partial<DbCliente>` a save sends: the tenant, the person kind and
      name, fifteen nullable columns, and a country that is always set. */
  datatype ClientePayload = ClientePayload(
    tenantId: string, tipoPessoa: TipoPessoa, nome: string,
    razaoSocial: Option<string>, nomeFantasia: Option<string>, cpfCnpj: Option<string>,
    inscricaoEstadual: Option<string>, inscricaoMunicipal: Option<string>, email: Option<string>,
    telefone: Option<string>, cep: Option<string>, logradouro: Option<string>, numero: Option<string>,
    complemento: Option<string>, bairro: Option<string>, cidade: Option<string>, uf: Option<string>,
    pais: string, observacoes: Option<string>)

  const PaisPadrao := "Brasil"
  const MsgSemTenant := "Sem tenant. Fa\U{00E7}a login e complete o cadastro do ambiente."

  /** `mapClienteFromDb`: the tenant is dropped, null columns become absent
      fields, everything else is copied. */
  function MapClienteFromDb(r: DbCliente): (c: Cliente)
    ensures c.id == r.id && c.nome == r.nome && c.tipoPessoa == r.tipoPessoa && c.createdAt == r.createdAt
    ensures c.razaoSocial == r.razaoSocial && c.nomeFantasia == r.nomeFantasia && c.cpfCnpj == r.cpfCnpj
            && c.inscricaoEstadual == r.inscricaoEstadual && c.inscricaoMunicipal == r.inscricaoMunicipal
            && c.email == r.email && c.telefone == r.telefone && c.cep == r.cep
            && c.logradouro == r.logradouro && c.numero == r.numero && c.complemento == r.complemento
            && c.bairro == r.bairro && c.cidade == r.cidade && c.uf == r.uf && c.pais == r.pais
            && c.observacoes == r.observacoes
  {
    Cliente(r.id, r.nome, r.tipoPessoa, r.razaoSocial, r.nomeFantasia, r.cpfCnpj, r.inscricaoEstadual,
            r.inscricaoMunicipal, r.email, r.telefone, r.cep, r.logradouro, r.numero, r.complemento,
            r.bairro, r.cidade, r.uf, r.pais, r.observacoes, r.createdAt)
  }

  /** The empty form the page starts with and returns to after a save. */
  function FormVazio(): ClienteForm {
    ClienteForm(Pj, "", "", "", "", "", "", "", "", "", "", "", "", "", "", "", PaisPadrao, "")
  }

  /** A text field showing an optional value: empty exactly when the value
      is absent or empty, and the value itself otherwise. */
  predicate ShowsAs(text: string, o: Option<string>) {
    (text == "" <==> !Truthy(o)) && (Truthy(o) ==> text == o.value)
  }

  /** A nullable column written from a text field: null exactly when the
      text is empty, and the text itself otherwise. */
  predicate NullIfEmpty(o: Option<string>, text: string) {
    (o.None? <==> text == "") && (o.Some? ==> o.value == text)
  }

  /** `handleEdit`: absent fields become empty text; an absent country
      becomes the default one. */
  function FormOf(c: Cliente): (f: ClienteForm)
    ensures f.tipoPessoa == c.tipoPessoa && f.nome == c.nome
    ensures ShowsAs(f.razaoSocial, c.razaoSocial) && ShowsAs(f.nomeFantasia, c.nomeFantasia)
            && ShowsAs(f.cpfCnpj, c.cpfCnpj) && ShowsAs(f.inscricaoEstadual, c.inscricaoEstadual)
            && ShowsAs(f.inscricaoMunicipal, c.inscricaoMunicipal) && ShowsAs(f.email, c.email)
            && ShowsAs(f.telefone, c.telefone) && ShowsAs(f.cep, c.cep)
            && ShowsAs(f.logradouro, c.logradouro) && ShowsAs(f.numero, c.numero)
            && ShowsAs(f.complemento, c.complemento) && ShowsAs(f.bairro, c.bairro)
            && ShowsAs(f.cidade, c.cidade) && ShowsAs(f.uf, c.uf) && ShowsAs(f.observacoes, c.observacoes)
    ensures c.pais.Some? ==> f.pais == c.pais.value
    ensures c.pais.None? ==> f.pais == PaisPadrao
  {
    ClienteForm(c.tipoPessoa, c.nome, OrEmpty(c.razaoSocial), OrEmpty(c.nomeFantasia), OrEmpty(c.cpfCnpj),
                OrEmpty(c.inscricaoEstadual), OrEmpty(c.inscricaoMunicipal), OrEmpty(c.email),
                OrEmpty(c.telefone), OrEmpty(c.cep), OrEmpty(c.logradouro), OrEmpty(c.numero),
                OrEmpty(c.complemento), OrEmpty(c.bairro), OrEmpty(c.cidade), OrEmpty(c.uf),
                if c.pais.Some? then c.pais.value else PaisPadrao, OrEmpty(c.observacoes))
  }

  /** The payload of `handleSubmit`: empty text becomes null, and an empty
      country becomes the default one. */
  function Payload(f: ClienteForm, tenantId: string): (p: ClientePayload)
    ensures p.tenantId == tenantId && p.tipoPessoa == f.tipoPessoa && p.nome == f.nome
    ensures NullIfEmpty(p.razaoSocial, f.razaoSocial) && NullIfEmpty(p.nomeFantasia, f.nomeFantasia)
            && NullIfEmpty(p.cpfCnpj, f.cpfCnpj) && NullIfEmpty(p.inscricaoEstadual, f.inscricaoEstadual)
            && NullIfEmpty(p.inscricaoMunicipal, f.inscricaoMunicipal) && NullIfEmpty(p.email, f.email)
            && NullIfEmpty(p.telefone, f.telefone) && NullIfEmpty(p.cep, f.cep)
            && NullIfEmpty(p.logradouro, f.logradouro) && NullIfEmpty(p.numero, f.numero)
            && NullIfEmpty(p.complemento, f.complemento) && NullIfEmpty(p.bairro, f.bairro)
            && NullIfEmpty(p.cidade, f.cidade) && NullIfEmpty(p.uf, f.uf)
            && NullIfEmpty(p.observacoes, f.observacoes)
    ensures p.pais != "" && (f.pais != "" ==> p.pais == f.pais)
  {
    ClientePayload(tenantId, f.tipoPessoa, f.nome, OrNone(f.razaoSocial), OrNone(f.nomeFantasia),
                   OrNone(f.cpfCnpj), OrNone(f.inscricaoEstadual), OrNone(f.inscricaoMunicipal),
                   OrNone(f.email), OrNone(f.telefone), OrNone(f.cep), OrNone(f.logradouro),
                   OrNone(f.numero), OrNone(f.complemento), OrNone(f.bairro), OrNone(f.cidade),
                   OrNone(f.uf), if f.pais == "" then PaisPadrao else f.pais, OrNone(f.observacoes))
  }

  /** Editing a client and saving without changes writes the client back,
      except that every absent field and every empty one is written as null,
      and a missing or empty country as the default one. */
  lemma EditThenSave(c: Cliente, tenantId: string)
    ensures var p := Payload(FormOf(c), tenantId);
            && p.tenantId == tenantId && p.tipoPessoa == c.tipoPessoa && p.nome == c.nome
            && p.razaoSocial == Normalized(c.razaoSocial) && p.nomeFantasia == Normalized(c.nomeFantasia)
            && p.cpfCnpj == Normalized(c.cpfCnpj) && p.inscricaoEstadual == Normalized(c.inscricaoEstadual)
            && p.inscricaoMunicipal == Normalized(c.inscricaoMunicipal) && p.email == Normalized(c.email)
            && p.telefone == Normalized(c.telefone) && p.cep == Normalized(c.cep)
            && p.logradouro == Normalized(c.logradouro) && p.numero == Normalized(c.numero)
            && p.complemento == Normalized(c.complemento) && p.bairro == Normalized(c.bairro)
            && p.cidade == Normalized(c.cidade) && p.uf == Normalized(c.uf)
            && p.observacoes == Normalized(c.observacoes)
            && p.pais == (if Truthy(c.pais) then c.pais.value else PaisPadrao)
  {
  }

  /** Saving the empty form with a name writes null in every optional column
      and the default country. */
  lemma SaveFormVazio(nome: string, tenantId: string)
    ensures Payload(FormVazio().(nome := nome), tenantId)
            == ClientePayload(tenantId, Pj, nome, None, None, None, None, None, None, None, None, None,
                              None, None, None, None, None, PaisPadrao, None)
  {
  }

  /** The fields the search looks at, in the order the page lists them. */
  function CamposBusca(c: Cliente): (r: seq<Option<string>>)
    ensures |r| == 6 && r[0] == Some(c.nome)
    ensures r[1..] == [c.cpfCnpj, c.email, c.telefone, c.razaoSocial, c.nomeFantasia]
  {
    [Some(c.nome), c.cpfCnpj, c.email, c.telefone, c.razaoSocial, c.nomeFantasia]
  }

  /** `.filter(Boolean).some(v => v.toLowerCase().includes(q))` over a list
      of optional values: some present, non-empty value contains `q` once
      lowered. */
  function AlgumContem(vs: seq<Option<string>>, q: string): (b: bool)
    ensures b <==> exists k :: 0 <= k < |vs| && Truthy(vs[k]) && Contains(Lower(vs[k].value), q)
  {
    if |vs| == 0 then false
    else
      var rest := AlgumContem(vs[1..], q);
      assert rest <==> exists k :: 1 <= k < |vs| && Truthy(vs[k]) && Contains(Lower(vs[k].value), q) by {
        if rest {
          var k :| 0 <= k < |vs[1..]| && Truthy(vs[1..][k]) && Contains(Lower(vs[1..][k].value), q);
          assert vs[1..][k] == vs[k + 1];
        }
        if exists k :: 1 <= k < |vs| && Truthy(vs[k]) && Contains(Lower(vs[k].value), q) {
          var k :| 1 <= k < |vs| && Truthy(vs[k]) && Contains(Lower(vs[k].value), q);
          assert vs[1..][k - 1] == vs[k];
        }
      }
      (Truthy(vs[0]) && Contains(Lower(vs[0].value), q)) || rest
  }

  /** A client matches the (already lowered) query when one of its six search
      fields contains it. */
  function Matches(q: string): (m: Cliente -> bool)
    ensures forall c :: m(c) <==> exists k :: 0 <= k < 6 && Truthy(CamposBusca(c)[k])
                                             && Contains(Lower(CamposBusca(c)[k].value), q)
  {
    (c: Cliente) => AlgumContem(CamposBusca(c), q)
  }

  /** The `filtered` list: the whole list for a blank query, otherwise the
      clients that match the trimmed, lowered query, in their order. */
  function Filtered(clientes: seq<Cliente>, query: string): (r: seq<Cliente>)
    ensures |r| <= |clientes|
    ensures forall i :: 0 <= i < |r| ==> r[i] in clientes
    ensures AllWhitespace(query) ==> r == clientes
  {
    var q := Lower(Trim(query));
    if q == "" then clientes else Filter(clientes, Matches(q))
  }

  /** A blank or whitespace-only query shows every client. */
  lemma BlankQueryShowsAll(clientes: seq<Cliente>, query: string)
    requires AllWhitespace(query)
    ensures Filtered(clientes, query) == clientes
  {
  }

  /** Any other query shows exactly the clients with a search field that
      contains it, ignoring case and surrounding blanks, in list order. */
  lemma QueryShowsMatches(clientes: seq<Cliente>, query: string)
    requires !AllWhitespace(query)
    ensures var q := Lower(Trim(query));
            && q != ""
            && Filtered(clientes, query) == Filter(clientes, Matches(q))
            && (forall i :: 0 <= i < |clientes| ==>
                  (clientes[i] in Filtered(clientes, query) <==>
                     exists k :: 0 <= k < 6 && Truthy(CamposBusca(clientes[i])[k])
                                 && Contains(Lower(CamposBusca(clientes[i])[k].value), q)))
  {
    var q := Lower(Trim(query));
    assert |q| == |Trim(query)| > 0;
    FilterMatches(clientes, q);
  }

  lemma FilterMatches(clientes: seq<Cliente>, q: string)
    ensures forall i :: 0 <= i < |clientes| ==>
              (clientes[i] in Filter(clientes, Matches(q)) <==>
                 exists k :: 0 <= k < 6 && Truthy(CamposBusca(clientes[i])[k])
                             && Contains(Lower(CamposBusca(clientes[i])[k].value), q))
  {
    forall i | 0 <= i < |clientes|
      ensures clientes[i] in Filter(clientes, Matches(q)) <==> Matches(q)(clientes[i])
    {
      FilterMember(clientes, Matches(q), clientes[i]);
    }
  }

  /** Only the six search fields take part in the search: clients that agree
      on them are shown or hidden together, whatever their address, notes
      or other fields say. */
  lemma SearchIgnoresOtherFields(a: Cliente, b: Cliente, query: string)
    requires CamposBusca(a) == CamposBusca(b)
    ensures var q := Lower(Trim(query));
            q != "" ==> (Matches(q)(a) <==> Matches(q)(b))
    ensures Filtered([a], query) == [a] <==> Filtered([b], query) == [b]
  {
    var q := Lower(Trim(query));
    assert Matches(q)(a) == AlgumContem(CamposBusca(a), q) == Matches(q)(b);
    if q != "" {
      assert [a][1..] == [] && [b][1..] == [];
    }
  }

  /** What a save does: nothing (with the message shown) when there is no
      tenant, otherwise an update of the edited row or an insert. */
  datatype ClienteWrite = SemTenant(message: string) | UpdateRow(id: string, payload: ClientePayload)
                        | InsertRow(payload: ClientePayload)

  /** The choice `handleSubmit` makes: with no tenant it stops before any
      write; with one, it updates the row being edited, or inserts when no
      row is being edited. */
  function SubmitWrite(f: ClienteForm, editingId: Option<string>, tenantId: Option<string>): (w: ClienteWrite)
    ensures !Truthy(tenantId) <==> w.SemTenant?
    ensures w.UpdateRow? <==> Truthy(tenantId) && Truthy(editingId)
    ensures w.UpdateRow? ==> w.id == editingId.value
    ensures !w.SemTenant? ==> w.payload == Payload(f, tenantId.value)
  {
    if !Truthy(tenantId) then SemTenant(MsgSemTenant)
    else if Truthy(editingId) then UpdateRow(editingId.value, Payload(f, tenantId.value))
    else InsertRow(Payload(f, tenantId.value))
  }

  /** The page's state: the loaded list, the search text, the form, the id of
      the client being edited, and the error on display. */
  class ClientesPage {
    var clientes: seq<Cliente>
    var query: string
    var form: ClienteForm
    var editingId: Option<string>
    var showForm: bool
    var erro: Option<string>

    constructor ()
      ensures clientes == [] && query == "" && form == FormVazio() && editingId.None?
      ensures !showForm && erro.None?
    {
      clientes, query, form, editingId, showForm, erro := [], "", FormVazio(), None, false, None;
    }

    /** What the table shows. */
    function Visible(): seq<Cliente>
      reads this
    {
      Filtered(clientes, query)
    }

    /** `handleEdit`: the form shows the client and the save will update it. */
    method HandleEdit(c: Cliente)
      modifies this
      ensures editingId == Some(c.id) && form == FormOf(c) && showForm
      ensures clientes == old(clientes) && query == old(query) && erro == old(erro)
    {
      editingId := Some(c.id);
      form := FormOf(c);
      showForm := true;
    }

    /** `handleSubmit`. The tenant lookup's answer (an error message, or the
        tenant id if any), the database's error if the write fails, and the
        rows the reload reads are parameters. On success the form is reset
        and the list reloaded; on failure the error is shown and the form
        kept. */
    method HandleSubmit(tenant: Result<Option<string>>, dbError: Option<string>, reloaded: seq<DbCliente>)
      returns (write: Option<ClienteWrite>)
      modifies this
      ensures tenant.Err? ==> write.None? && erro == Some(tenant.message)
      ensures tenant.Ok? ==> write == Some(SubmitWrite(old(form), old(editingId), tenant.value))
      ensures var ok := tenant.Ok? && Truthy(tenant.value) && dbError.None?;
              && (ok ==> erro.None? && form == FormVazio() && editingId.None? && !showForm
                         && clientes == Map(reloaded, MapClienteFromDb))
              && (!ok ==> form == old(form) && editingId == old(editingId) && showForm == old(showForm)
                          && clientes == old(clientes))
      ensures tenant.Ok? && !Truthy(tenant.value) ==> erro == Some(MsgSemTenant)
      ensures tenant.Ok? && Truthy(tenant.value) && dbError.Some? ==> erro == dbError
      ensures query == old(query)
    {
      erro := None;
      if tenant.Err? {
        erro := Some(tenant.message);
        return None;
      }
      var w := SubmitWrite(form, editingId, tenant.value);
      write := Some(w);
      if w.SemTenant? {
        erro := Some(w.message);
        return;
      }
      if dbError.Some? {
        erro := dbError;
        return;
      }
      form, editingId, showForm := FormVazio(), None, false;
      clientes := Map(reloaded, MapClienteFromDb);
    }
  }
}
