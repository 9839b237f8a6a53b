/** app/api/auth/registro/route.ts: self-service signup. The route validates
    the trimmed form fields, then provisions in four backend calls — create
    the auth user, upsert the profile, insert the tenant, insert the
    membership — and stops at the first failure without undoing the calls
    that already succeeded.

    The backend is the state those calls change. What each call answers is
    not up to the route, so it is a parameter (`Outcomes`): a call returns a
    value, returns an error object, or throws. */
module Registro {
  import opened Wrappers
  import opened Text
  import opened Api

  const MsgNomeTenant := "Informe o nome da empresa/ambiente"
  const MsgNomeUsuario := "Informe seu nome"
  const MsgEmail := "Informe o e-mail"
  const MsgSenha := "Senha deve ter pelo menos 6 caracteres"
  const MsgSemUsuario := "Falha ao criar usu\U{00E1}rio"
  const MsgInesperado := "Erro inesperado"
  const PapelAdmin := "admin"
  const MinSenha := 6

  /** The JSON body; a field is `None` when it is missing or null. */
  datatype SignupBody = SignupBody(
    nomeTenant: Option<string>, nomeUsuario: Option<string>, email: Option<string>, senha: Option<string>)

  /** The four values the route works with. */
  datatype SignupInput = SignupInput(nomeTenant: string, nomeUsuario: string, email: string, password: string)

  /** Missing fields read as empty; the names and the e-mail are trimmed, the
      password is taken as sent. */
  function InputOf(b: SignupBody): (r: SignupInput)
    ensures r.password == OrEmpty(b.senha)
    ensures exists k :: Trimmed(OrEmpty(b.nomeTenant), r.nomeTenant, k)
    ensures exists k :: Trimmed(OrEmpty(b.nomeUsuario), r.nomeUsuario, k)
    ensures exists k :: Trimmed(OrEmpty(b.email), r.email, k)
    ensures r.nomeTenant == "" <==> AllWhitespace(OrEmpty(b.nomeTenant))
    ensures r.nomeUsuario == "" <==> AllWhitespace(OrEmpty(b.nomeUsuario))
    ensures r.email == "" <==> AllWhitespace(OrEmpty(b.email))
  {
    var nomeTenant := Trim(OrEmpty(b.nomeTenant));
    var nomeUsuario := Trim(OrEmpty(b.nomeUsuario));
    var email := Trim(OrEmpty(b.email));
    SignupInput(nomeTenant, nomeUsuario, email, OrEmpty(b.senha))
  }

  /** The checks, in order; the message of the first that fails. The
      password's length is JavaScript's, in UTF-16 code units. */
  function Validate(i: SignupInput): (r: Option<string>)
    ensures r == Some(MsgNomeTenant) <==> i.nomeTenant == ""
    ensures r == Some(MsgNomeUsuario) <==> i.nomeTenant != "" && i.nomeUsuario == ""
    ensures r == Some(MsgEmail) <==> i.nomeTenant != "" && i.nomeUsuario != "" && i.email == ""
    ensures r == Some(MsgSenha) <==>
              i.nomeTenant != "" && i.nomeUsuario != "" && i.email != "" && Utf16Len(i.password) < MinSenha
    ensures r.None? <==>
              i.nomeTenant != "" && i.nomeUsuario != "" && i.email != "" && Utf16Len(i.password) >= MinSenha
  {
    if i.nomeTenant == "" then Some(MsgNomeTenant)
    else if i.nomeUsuario == "" then Some(MsgNomeUsuario)
    else if i.email == "" then Some(MsgEmail)
    else if i.password == "" || Utf16Len(i.password) < MinSenha then Some(MsgSenha)
    else None
  }

  /** What one backend call answered. */
  datatype Call<T> = Returned(value: T) | ReturnedError(message: string) | Threw(thrown: Option<string>)

  /** The answers of the calls, in the order the route makes them. Building the
      admin client either works (`None`) or throws (`Some`). `createUser`
      returns the new user's id, which may be missing; the tenant insert
      returns the new tenant's id. */
  datatype Outcomes = Outcomes(
    clientThrew: Option<Option<string>>, createUser: Call<Option<string>>, upsertPerfil: Call<()>,
    insertTenant: Call<string>, insertMembro: Call<()>)

  datatype AuthUser = AuthUser(id: string, email: string, password: string, emailConfirmed: bool)
  datatype Perfil = Perfil(email: string, nome: string)
  datatype Membro = Membro(tenantId: string, userId: string, papel: string)

  /** Auth users, profiles by user id, tenant names by tenant id, and
      memberships. */
  datatype BackendState = BackendState(
    users: seq<AuthUser>, perfis: map<string, Perfil>, tenants: map<string, string>, membros: seq<Membro>)

  datatype SignupData = SignupData(userId: string, tenantId: string)

  /** The `catch`: status 500 with the thrown message, or a fixed one. */
  function ThrownResponse(thrown: Option<string>): (r: Response<SignupData>)
    ensures r.status == 500 && r.body.Failure?
    ensures thrown.Some? ==> r.body.error == thrown.value
    ensures thrown.None? ==> r.body.error == MsgInesperado
  {
    JsonError(thrown.GetOr(MsgInesperado), 500)
  }

  /** The answer to a call that failed: its own message with the status the
      route gives that call, or the `catch` answer when it threw. */
  function CallFailure<T>(c: Call<T>, status: int): (r: Response<SignupData>)
    requires !c.Returned?
    ensures c.ReturnedError? ==> r == JsonError(c.message, status)
    ensures c.Threw? ==> r == ThrownResponse(c.thrown)
  {
    if c.ReturnedError? then JsonError(c.message, status) else ThrownResponse(c.thrown)
  }

  /** Nothing the backend held before a call is gone after it. */
  predicate Grows(s: BackendState, t: BackendState) {
    && s.users <= t.users && s.membros <= t.membros
    && s.perfis.Keys <= t.perfis.Keys && s.tenants.Keys <= t.tenants.Keys
  }

  /** The route as a function of the backend before it, the request body (or
      the message of the parse error) and the calls' answers: the backend
      after it, and the response. */
  function Signup(s: BackendState, body: Result<SignupBody>, o: Outcomes): (r: (BackendState, Response<SignupData>))
    ensures Grows(s, r.0)
    ensures r.1.status in {200, 400, 500}
    ensures body.Err? ==> r.0 == s && r.1 == JsonError(body.message, 500)
  {
    if body.Err? then (s, JsonError(body.message, 500))
    else Provision(s, InputOf(body.value), o)
  }

  /** The route after the body is read: the checks, building the admin
      client, then the calls. */
  function Provision(s: BackendState, i: SignupInput, o: Outcomes): (r: (BackendState, Response<SignupData>))
    ensures Grows(s, r.0)
    ensures r.1.status in {200, 400, 500}
    ensures r.1.status == 400 <==> Validate(i).Some? || (o.clientThrew.None? && o.createUser.ReturnedError?)
    ensures r.1.body.Success? <==> r.1.status == 200
  {
    var invalid := Validate(i);
    if invalid.Some? then (s, JsonError(invalid.value))
    else if o.clientThrew.Some? then (s, ThrownResponse(o.clientThrew.value))
    else CreateUser(s, i, o)
  }

  /** `createUser`: an error it reports answers 400; a missing id answers
      500 with nothing recorded; otherwise the confirmed user is added and
      the profile comes next. */
  function CreateUser(s: BackendState, i: SignupInput, o: Outcomes): (r: (BackendState, Response<SignupData>))
    ensures Grows(s, r.0)
    ensures r.1.status in {200, 400, 500}
    ensures r.1.status == 400 <==> o.createUser.ReturnedError?
    ensures r.1.body.Success? <==> r.1.status == 200
    ensures o.createUser.Returned? && Truthy(o.createUser.value) ==>
              r.0.users == s.users + [AuthUser(o.createUser.value.value, i.email, i.password, true)]
    ensures !o.createUser.Returned? ==> r == (s, CallFailure(o.createUser, 400))
    ensures o.createUser.Returned? && !Truthy(o.createUser.value) ==> r == (s, JsonError(MsgSemUsuario, 500))
  {
    match o.createUser
    case ReturnedError(message) => (s, JsonError(message, 400))
    case Threw(thrown) => (s, ThrownResponse(thrown))
    case Returned(id) =>
      if !Truthy(id) then (s, JsonError(MsgSemUsuario, 500))
      else UpsertPerfil(s.(users := s.users + [AuthUser(id.value, i.email, i.password, true)]), i, id.value, o)
  }

  /** The profile upsert: any failure answers 500; the profile is keyed by
      the user id. */
  function UpsertPerfil(s: BackendState, i: SignupInput, userId: string, o: Outcomes)
    : (r: (BackendState, Response<SignupData>))
    ensures Grows(s, r.0) && r.0.users == s.users
    ensures r.1.status in {200, 500}
    ensures r.1.body.Success? <==> r.1.status == 200
    ensures !o.upsertPerfil.Returned? ==> r == (s, CallFailure(o.upsertPerfil, 500))
    ensures o.upsertPerfil.Returned? ==> r.0.perfis == s.perfis[userId := Perfil(i.email, i.nomeUsuario)]
  {
    match o.upsertPerfil
    case ReturnedError(message) => (s, JsonError(message, 500))
    case Threw(thrown) => (s, ThrownResponse(thrown))
    case Returned(_) => InsertTenant(s.(perfis := s.perfis[userId := Perfil(i.email, i.nomeUsuario)]), i, userId, o)
  }

  /** The tenant insert: any failure answers 500; the new tenant's id comes
      back from the insert. */
  function InsertTenant(s: BackendState, i: SignupInput, userId: string, o: Outcomes)
    : (r: (BackendState, Response<SignupData>))
    ensures Grows(s, r.0) && r.0.users == s.users
    ensures r.1.status in {200, 500}
    ensures r.1.body.Success? <==> r.1.status == 200
    ensures !o.insertTenant.Returned? ==> r == (s, CallFailure(o.insertTenant, 500))
    ensures o.insertTenant.Returned? ==>
              r.0.perfis == s.perfis && r.0.tenants == s.tenants[o.insertTenant.value := i.nomeTenant]
  {
    match o.insertTenant
    case ReturnedError(message) => (s, JsonError(message, 500))
    case Threw(thrown) => (s, ThrownResponse(thrown))
    case Returned(tenantId) => InsertMembro(s.(tenants := s.tenants[tenantId := i.nomeTenant]), userId, tenantId, o)
  }

  /** The membership insert: any failure answers 500; success makes the user
      the tenant's admin and answers with both ids. */
  function InsertMembro(s: BackendState, userId: string, tenantId: string, o: Outcomes)
    : (r: (BackendState, Response<SignupData>))
    ensures Grows(s, r.0) && r.0.users == s.users
    ensures r.1.status in {200, 500}
    ensures r.1.body.Success? <==> r.1.status == 200
    ensures !o.insertMembro.Returned? ==> r == (s, CallFailure(o.insertMembro, 500))
    ensures o.insertMembro.Returned? ==>
              r == (s.(membros := s.membros + [Membro(tenantId, userId, PapelAdmin)]),
                    JsonOk(SignupData(userId, tenantId)))
  {
    match o.insertMembro
    case ReturnedError(message) => (s, JsonError(message, 500))
    case Threw(thrown) => (s, ThrownResponse(thrown))
    case Returned(_) =>
      (s.(membros := s.membros + [Membro(tenantId, userId, PapelAdmin)]), JsonOk(SignupData(userId, tenantId)))
  }

  /** The backend the route runs against. */
  class Backend {
    var users: seq<AuthUser>
    var perfis: map<string, Perfil>
    var tenants: map<string, string>
    var membros: seq<Membro>

    function State(): BackendState
      reads this
    {
      BackendState(users, perfis, tenants, membros)
    }

    constructor ()
      ensures State() == BackendState([], map[], map[], [])
    {
      users, perfis, tenants, membros := [], map[], map[], [];
    }

    /** `POST`: the body is read and its fields trimmed, then the checks and
        the calls run. */
    method Post(body: Result<SignupBody>, o: Outcomes) returns (resp: Response<SignupData>)
      modifies this
      ensures (State(), resp) == Signup(old(State()), body, o)
    {
      if body.Err? {
        return JsonError(body.message, 500);
      }
      var nomeTenant := Trim(OrEmpty(body.value.nomeTenant));
      var nomeUsuario := Trim(OrEmpty(body.value.nomeUsuario));
      var email := Trim(OrEmpty(body.value.email));
      var password := OrEmpty(body.value.senha);
      var input := SignupInput(nomeTenant, nomeUsuario, email, password);
      assert input == InputOf(body.value);
      resp := CreateAccount(input, o);
    }

    /** The checks, then one call after the other, each followed by its
        early return; what a call already wrote stays. */
    method CreateAccount(input: SignupInput, o: Outcomes) returns (resp: Response<SignupData>)
      modifies this
      ensures (State(), resp) == Provision(old(State()), input, o)
    {
      ghost var s0 := State();
      var invalid := Validate(input);
      if invalid.Some? {
        return JsonError(invalid.value);
      }
      if o.clientThrew.Some? {
        return ThrownResponse(o.clientThrew.value);
      }

      var created := o.createUser;
      if created.ReturnedError? {
        return JsonError(created.message, 400);
      } else if created.Threw? {
        return ThrownResponse(created.thrown);
      }
      if !Truthy(created.value) {
        return JsonError(MsgSemUsuario, 500);
      }
      var userId := created.value.value;
      users := users + [AuthUser(userId, input.email, input.password, true)];
      assert Provision(s0, input, o) == UpsertPerfil(State(), input, userId, o);

      if o.upsertPerfil.ReturnedError? {
        return JsonError(o.upsertPerfil.message, 500);
      } else if o.upsertPerfil.Threw? {
        return ThrownResponse(o.upsertPerfil.thrown);
      }
      perfis := perfis[userId := Perfil(input.email, input.nomeUsuario)];
      assert Provision(s0, input, o) == InsertTenant(State(), input, userId, o);

      if o.insertTenant.ReturnedError? {
        return JsonError(o.insertTenant.message, 500);
      } else if o.insertTenant.Threw? {
        return ThrownResponse(o.insertTenant.thrown);
      }
      var tenantId := o.insertTenant.value;
      tenants := tenants[tenantId := input.nomeTenant];
      assert Provision(s0, input, o) == InsertMembro(State(), userId, tenantId, o);

      if o.insertMembro.ReturnedError? {
        return JsonError(o.insertMembro.message, 500);
      } else if o.insertMembro.Threw? {
        return ThrownResponse(o.insertMembro.thrown);
      }
      membros := membros + [Membro(tenantId, userId, PapelAdmin)];

      return JsonOk(SignupData(userId, tenantId));
    }
  }

  /** Input that fails a check is answered with 400 and that check's message,
      whatever the backend would have done, and the backend is not touched. */
  lemma InvalidInputTouchesNothing(s: BackendState, b: SignupBody, o: Outcomes)
    requires Validate(InputOf(b)).Some?
    ensures Signup(s, Ok(b), o).0 == s
    ensures Signup(s, Ok(b), o).1 == JsonError(Validate(InputOf(b)).value, 400)
  {
  }

  /** A password shorter than six UTF-16 code units is refused, and nothing
      is created. */
  lemma ShortPasswordRefused(s: BackendState, b: SignupBody, o: Outcomes)
    requires Utf16Len(OrEmpty(b.senha)) < MinSenha
    ensures Signup(s, Ok(b), o).0 == s
    ensures Signup(s, Ok(b), o).1.status == 400
  {
    var i := InputOf(b);
    assert i.password == OrEmpty(b.senha);
    SignupOfBody(s, b, o);
    ProvisionRefuses(s, i, o);
  }

  /** A body that parses is provisioned from its trimmed input. */
  lemma SignupOfBody(s: BackendState, b: SignupBody, o: Outcomes)
    ensures Signup(s, Ok(b), o) == Provision(s, InputOf(b), o)
  {
  }

  /** Input that fails a check leaves the backend as it was. */
  lemma ProvisionRefuses(s: BackendState, i: SignupInput, o: Outcomes)
    requires Validate(i).Some?
    ensures Provision(s, i, o) == (s, JsonError(Validate(i).value, 400))
  {
  }

  /** The length is that of the password as sent: blanks count, so a
      password of six spaces passes the checks. */
  lemma BlankPasswordAccepted()
    ensures Validate(InputOf(SignupBody(Some("Acme"), Some("Ana"), Some("ana@acme.com"), Some("      ")))).None?
  {
    assert !IsWhitespace("Acme"[0]) && !IsWhitespace("Ana"[0]) && !IsWhitespace("ana@acme.com"[0]);
    assert !AllWhitespace("Acme") && !AllWhitespace("Ana") && !AllWhitespace("ana@acme.com");
  }

  /** The length is counted in UTF-16 code units: three characters beyond
      the Basic Multilingual Plane make six, enough for the check. */
  lemma AstralPasswordAccepted()
    ensures Validate(InputOf(SignupBody(Some("Acme"), Some("Ana"), Some("ana@acme.com"),
                                        Some("\U{1F600}\U{1F600}\U{1F600}")))).None?
  {
    assert !IsWhitespace("Acme"[0]) && !IsWhitespace("Ana"[0]) && !IsWhitespace("ana@acme.com"[0]);
    assert !AllWhitespace("Acme") && !AllWhitespace("Ana") && !AllWhitespace("ana@acme.com");
  }

  /** Only the trimmed names and e-mail and the password as sent matter:
      bodies that agree on those get the same answer and the same effect. */
  lemma OnlyTrimmedInputMatters(s: BackendState, b1: SignupBody, b2: SignupBody, o: Outcomes)
    requires Trim(OrEmpty(b1.nomeTenant)) == Trim(OrEmpty(b2.nomeTenant))
    requires Trim(OrEmpty(b1.nomeUsuario)) == Trim(OrEmpty(b2.nomeUsuario))
    requires Trim(OrEmpty(b1.email)) == Trim(OrEmpty(b2.email))
    requires OrEmpty(b1.senha) == OrEmpty(b2.senha)
    ensures Signup(s, Ok(b1), o) == Signup(s, Ok(b2), o)
  {
    SameInput(b1, b2);
    SignupOfBody(s, b1, o);
    SignupOfBody(s, b2, o);
  }

  lemma SameInput(b1: SignupBody, b2: SignupBody)
    requires Trim(OrEmpty(b1.nomeTenant)) == Trim(OrEmpty(b2.nomeTenant))
    requires Trim(OrEmpty(b1.nomeUsuario)) == Trim(OrEmpty(b2.nomeUsuario))
    requires Trim(OrEmpty(b1.email)) == Trim(OrEmpty(b2.email))
    requires OrEmpty(b1.senha) == OrEmpty(b2.senha)
    ensures InputOf(b1) == InputOf(b2)
  {
  }

  /** The route answers 200 exactly when the input is valid and every call
      succeeds with an id for the user. It then has created a confirmed user
      with the trimmed e-mail, its profile, the tenant with the trimmed name,
      and one membership that makes that user the tenant's admin, and it
      answers with the two new ids. */
  lemma SignupSucceeds(s: BackendState, b: SignupBody, o: Outcomes)
    ensures Signup(s, Ok(b), o).1.status == 200 <==>
              && Validate(InputOf(b)).None? && o.clientThrew.None?
              && o.createUser.Returned? && Truthy(o.createUser.value)
              && o.upsertPerfil.Returned? && o.insertTenant.Returned? && o.insertMembro.Returned?
    ensures Signup(s, Ok(b), o).1.status == 200 ==>
              var i, userId, tenantId := InputOf(b), o.createUser.value.value, o.insertTenant.value;
              && Signup(s, Ok(b), o).1.body == Success(SignupData(userId, tenantId))
              && Signup(s, Ok(b), o).0 == BackendState(
                   s.users + [AuthUser(userId, i.email, i.password, true)],
                   s.perfis[userId := Perfil(i.email, i.nomeUsuario)],
                   s.tenants[tenantId := i.nomeTenant],
                   s.membros + [Membro(tenantId, userId, PapelAdmin)])
  {
    ProvisionSucceeds(s, InputOf(b), o);
  }

  lemma ProvisionSucceeds(s: BackendState, i: SignupInput, o: Outcomes)
    ensures Provision(s, i, o).1.status == 200 <==>
              && Validate(i).None? && o.clientThrew.None?
              && o.createUser.Returned? && Truthy(o.createUser.value)
              && o.upsertPerfil.Returned? && o.insertTenant.Returned? && o.insertMembro.Returned?
    ensures Provision(s, i, o).1.status == 200 ==>
              var userId, tenantId := o.createUser.value.value, o.insertTenant.value;
              && Provision(s, i, o).1.body == Success(SignupData(userId, tenantId))
              && Provision(s, i, o).0 == BackendState(
                   s.users + [AuthUser(userId, i.email, i.password, true)],
                   s.perfis[userId := Perfil(i.email, i.nomeUsuario)],
                   s.tenants[tenantId := i.nomeTenant],
                   s.membros + [Membro(tenantId, userId, PapelAdmin)])
  {
  }

  /** Nothing is ever undone: whatever happens, the users and memberships
      before the call are a prefix of those after it, and no profile or
      tenant disappears. */
  lemma NoRollback(s: BackendState, body: Result<SignupBody>, o: Outcomes)
    ensures var t := Signup(s, body, o).0;
            && s.users <= t.users && s.membros <= t.membros
            && s.perfis.Keys <= t.perfis.Keys && s.tenants.Keys <= t.tenants.Keys
  {
  }

  /** Once the user is created, a later failure still answers 500 and leaves
      the user in place. */
  lemma LaterFailureKeepsUser(s: BackendState, b: SignupBody, o: Outcomes)
    requires Validate(InputOf(b)).None? && o.clientThrew.None?
    requires o.createUser.Returned? && Truthy(o.createUser.value)
    requires !o.upsertPerfil.Returned? || !o.insertTenant.Returned? || !o.insertMembro.Returned?
    ensures Signup(s, Ok(b), o).1.status == 500
    ensures Signup(s, Ok(b), o).0.users
            == s.users + [AuthUser(o.createUser.value.value, InputOf(b).email, InputOf(b).password, true)]
  {
    ProvisionSucceeds(s, InputOf(b), o);
  }

  /** Building the admin client throws once the checks pass: the `catch`
      answers and nothing is created. */
  lemma ClientFailureChangesNothing(s: BackendState, b: SignupBody, o: Outcomes)
    requires Validate(InputOf(b)).None? && o.clientThrew.Some?
    ensures Signup(s, Ok(b), o) == (s, ThrownResponse(o.clientThrew.value))
  {
    SignupOfBody(s, b, o);
  }

  /** User creation fails: an error it reports answers 400 with that error's
      message, a throw answers as the `catch` does, a missing id answers 500
      with the fixed message; in every case nothing is created and no later
      call is made. */
  lemma UserCreationFailureChangesNothing(s: BackendState, b: SignupBody, o: Outcomes)
    requires Validate(InputOf(b)).None? && o.clientThrew.None?
    requires !o.createUser.Returned? || !Truthy(o.createUser.value)
    ensures Signup(s, Ok(b), o)
            == (s, if o.createUser.Returned? then JsonError(MsgSemUsuario, 500) else CallFailure(o.createUser, 400))
  {
    SignupOfBody(s, b, o);
  }

  /** The profile upsert fails: 500 with its message (or the `catch`
      answer); the new user stays, and no profile, tenant or membership is
      written. */
  lemma PerfilFailureKeepsUser(s: BackendState, b: SignupBody, o: Outcomes)
    requires Validate(InputOf(b)).None? && o.clientThrew.None?
    requires o.createUser.Returned? && Truthy(o.createUser.value)
    requires !o.upsertPerfil.Returned?
    ensures var i, userId := InputOf(b), o.createUser.value.value;
            Signup(s, Ok(b), o)
            == (s.(users := s.users + [AuthUser(userId, i.email, i.password, true)]),
                CallFailure(o.upsertPerfil, 500))
  {
    SignupOfBody(s, b, o);
  }

  /** The tenant insert fails: 500 with its message (or the `catch`
      answer); the new user and its profile stay, and no tenant or
      membership is written. */
  lemma TenantFailureKeepsPerfil(s: BackendState, b: SignupBody, o: Outcomes)
    requires Validate(InputOf(b)).None? && o.clientThrew.None?
    requires o.createUser.Returned? && Truthy(o.createUser.value)
    requires o.upsertPerfil.Returned? && !o.insertTenant.Returned?
    ensures var i, userId := InputOf(b), o.createUser.value.value;
            Signup(s, Ok(b), o)
            == (s.(users := s.users + [AuthUser(userId, i.email, i.password, true)],
                   perfis := s.perfis[userId := Perfil(i.email, i.nomeUsuario)]),
                CallFailure(o.insertTenant, 500))
  {
    SignupOfBody(s, b, o);
  }

  /** The membership insert fails: 500 with its message (or the `catch`
      answer); the new user, its profile and the tenant stay, and no
      membership is written. */
  lemma MembroFailureKeepsTenant(s: BackendState, b: SignupBody, o: Outcomes)
    requires Validate(InputOf(b)).None? && o.clientThrew.None?
    requires o.createUser.Returned? && Truthy(o.createUser.value)
    requires o.upsertPerfil.Returned? && o.insertTenant.Returned? && !o.insertMembro.Returned?
    ensures var i, userId := InputOf(b), o.createUser.value.value;
            Signup(s, Ok(b), o)
            == (s.(users := s.users + [AuthUser(userId, i.email, i.password, true)],
                   perfis := s.perfis[userId := Perfil(i.email, i.nomeUsuario)],
                   tenants := s.tenants[o.insertTenant.value := i.nomeTenant]),
                CallFailure(o.insertMembro, 500))
  {
    SignupOfBody(s, b, o);
  }

  /** The statuses the route answers with: 400 for bad input and for an error
      the user creation reports, 200 on success, and 500 for everything else
      (a body that does not parse, anything thrown, a missing user id, and an
      error from any later call). */
  lemma StatusCodes(s: BackendState, body: Result<SignupBody>, o: Outcomes)
    ensures Signup(s, body, o).1.status in {200, 400, 500}
    ensures Signup(s, body, o).1.status == 400 <==>
              body.Ok? && (Validate(InputOf(body.value)).Some?
                           || (o.clientThrew.None? && o.createUser.ReturnedError?))
    ensures Signup(s, body, o).1.body.Success? <==> Signup(s, body, o).1.status == 200
  {
  }
}
