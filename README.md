# Gestão Marcenaria — a Dafny model of its bookkeeping core

Gestão Marcenaria is a small bookkeeping web application for a joinery workshop. It keeps five kinds of records:

- cash movements (`Movimentacao`);
- payables (`ContaPagar`);
- receivables (`ContaReceber`);
- projects (`Projeto`);
- invoices (`NotaFiscal`).

This project models the parts of it that hold logic and proves what they promise.

- **Local store** (`lib/storage.ts`, module `Storage`). The five lists are kept in browser storage, under one key each. The model is the class `StorageService`, with one `seq` field per list. Its operations:
  - `get`, which reads a list;
  - `save`, which appends;
  - `update`, which shallow-merges a `Partial` record into the first element with the given id;
  - `delete`, which filters an id out.

  A `Partial` is a record of `Option` fields. An optional field has two layers, so that "key missing" and "key present but `undefined`" stay distinct, as they are under object spread. Outside a browser every read is empty and every write does nothing.
- **Reports** (`lib/utils.ts`, module `Reports`). Three functions:
  - the cash flow for an interval;
  - the income statement (DRE);
  - the profit of one project.

  Amounts are `real`. Dates are the source's ISO strings, and a `time` parameter places each one on an integer time line.
- **Row mappers** (`lib/db/mappers.ts`, module `Mappers`). These map between the snake_case database rows and the records. The model proves round trips through an insert, in which the database supplies `created_at` and the route supplies `tenant_id`.
- **Signup** (`app/api/auth/registro/route.ts` with `app/api/_utils.ts`, modules `Registro` and `Api`). The route:
  - trims and validates the body;
  - creates the user, upserts its profile, inserts the tenant and inserts the admin membership, stopping at the first failure;
  - never undoes an earlier step.

  The backend is the class `Backend`, with users, profiles, tenants and memberships. Its method `Post` reads and trims the body, and `CreateAccount` runs the checks and the calls. Each call's outcome is a parameter.
- **Pages**:
  - clients: search, form ↔ row normalisation and the save decision (module `Clientes`);
  - payables (module `ContasPagar`);
  - receivables (module `ContasReceber`);
  - invoices (module `NotasFiscais`).

  Each page keeps its React state as fields of a class, and its handlers are methods. The receivable and invoice pages drive `StorageService`. The payables page talks to the API: its requests are values, and the list the reload reads is a parameter.

The shared modules are:

- `Wrappers`: `Option` and `Result`;
- `Text`: `trim`, lower case, `includes`, `split('T')[0]`, `length` in UTF-16 code units and JavaScript truthiness;
- `Seqs`: `filter`, `map`, sums, `findIndex` and `find`, and a sort by key proved sorted and a permutation;
- `Types`: the records of `types/index.ts`, their `Partial` patches and the spread merge;
- `Badges`: the status badge colours.

## Model

| member | source | states |
|---|---|---|
| Types.Spread | lib/storage.ts:31 | in `{ ...old, ...patch }`, a key present in the patch wins and a missing key keeps the old value |
| Types.MovimentacaoPatchOf | lib/storage.ts:26-34 | a record used as a patch names every key, so merging it into any element gives exactly that record |
| Types.ContaPagarPatchOf | lib/storage.ts:56-64 | merging a whole payable into any element gives that payable |
| Types.ContaReceberPatchOf | lib/storage.ts:86-94 | merging a whole receivable into any element gives that receivable |
| Types.ProjetoPatchOf | lib/storage.ts:116-124 | merging a whole project into any element gives that project |
| Types.NotaFiscalPatchOf | lib/storage.ts:146-154 | merging a whole invoice into any element gives that invoice |
| Storage.StorageKeysDistinct | lib/storage.ts:3-9 | the five collections are stored under five different keys |
| Storage.UpdateFirst | lib/storage.ts:26-34 | `update`'s list: same length; with no element carrying the id, the same list; otherwise only the first element with the id changes, to the merge of it and the patch |
| Storage.RemoveId | lib/storage.ts:36-40 | `delete`'s list: no element keeps the id, every other element stays, nothing new appears |
| Storage.RemoveIdAppend | lib/storage.ts:36-40 | deleting from a concatenation deletes from each part, keeping the order of what is left |
| Storage.RemoveIdAbsent | lib/storage.ts:36-40 | deleting an id no element carries leaves the list as it was |
| Storage.RemoveIdIdempotent | lib/storage.ts:36-40 | deleting twice is deleting once |
| Storage.UpdateAfterRemoveIsNoOp | lib/storage.ts:26-40 | after a delete, an update of the same id changes nothing |
| Storage.UpdateAfterSaveHitsFirst | lib/storage.ts:19-34 | `save` does not check ids: after saving a duplicate id, `update` still changes the earlier element and not the saved one |
| Storage.StorageService.constructor | lib/storage.ts:13-17 | a store with no key written reads every collection as empty |
| Storage.StorageService.GetMovimentacoes | lib/storage.ts:13-17 | the stored movements, or empty outside a browser |
| Storage.StorageService.SaveMovimentacao | lib/storage.ts:19-24 | appends the movement; only the movements list changes; nothing outside a browser |
| Storage.StorageService.UpdateMovimentacao | lib/storage.ts:26-34 | the movements list becomes its `UpdateFirst`; nothing else changes |
| Storage.StorageService.DeleteMovimentacao | lib/storage.ts:36-40 | the movements list becomes its `RemoveId`; nothing else changes |
| Storage.StorageService.GetContasPagar | lib/storage.ts:43-47 | the stored payables, or empty outside a browser |
| Storage.StorageService.SaveContaPagar | lib/storage.ts:49-54 | appends the payable; only that list changes |
| Storage.StorageService.UpdateContaPagar | lib/storage.ts:56-64 | the payables list becomes its `UpdateFirst`; nothing else changes |
| Storage.StorageService.DeleteContaPagar | lib/storage.ts:66-70 | the payables list becomes its `RemoveId`; nothing else changes |
| Storage.StorageService.GetContasReceber | lib/storage.ts:73-77 | the stored receivables, or empty outside a browser |
| Storage.StorageService.SaveContaReceber | lib/storage.ts:79-84 | appends the receivable; only that list changes |
| Storage.StorageService.UpdateContaReceber | lib/storage.ts:86-94 | the receivables list becomes its `UpdateFirst`; nothing else changes |
| Storage.StorageService.DeleteContaReceber | lib/storage.ts:96-100 | the receivables list becomes its `RemoveId`; nothing else changes |
| Storage.StorageService.GetProjetos | lib/storage.ts:103-107 | the stored projects, or empty outside a browser |
| Storage.StorageService.SaveProjeto | lib/storage.ts:109-114 | appends the project; only that list changes |
| Storage.StorageService.UpdateProjeto | lib/storage.ts:116-124 | the projects list becomes its `UpdateFirst`; nothing else changes |
| Storage.StorageService.DeleteProjeto | lib/storage.ts:126-130 | the projects list becomes its `RemoveId`; nothing else changes |
| Storage.StorageService.GetNotasFiscais | lib/storage.ts:133-137 | the stored invoices, or empty outside a browser |
| Storage.StorageService.SaveNotaFiscal | lib/storage.ts:139-144 | appends the invoice; only that list changes |
| Storage.StorageService.UpdateNotaFiscal | lib/storage.ts:146-154 | the invoices list becomes its `UpdateFirst`; nothing else changes |
| Storage.StorageService.DeleteNotaFiscal | lib/storage.ts:156-160 | the invoices list becomes its `RemoveId`; nothing else changes |
| Reports.CalculateFluxoCaixa | lib/utils.ts:29-63 | the balance is inflow minus outflow |
| Reports.Within | lib/utils.ts:39-51 | `isWithinInterval`: with ordered bounds, the points between them inclusive; with reversed bounds, the points between them taken the other way round |
| Reports.WithinIgnoresBoundOrder | lib/utils.ts:39-51 | swapping the two bounds of an interval holds the same points |
| Reports.FluxoCaixaAddMovimentacao | lib/utils.ts:38-44 | a movement outside the interval changes no total; one inside adds its amount to the inflow or to the outflow, by its kind |
| Reports.FluxoCaixaAddContaPagar | lib/utils.ts:46-48 | a payable adds to the outflow exactly when it is paid and has a payment date inside the interval; any other payable changes no total |
| Reports.FluxoCaixaAddContaReceber | lib/utils.ts:50-52 | a receivable adds to the inflow exactly when it is received and has a receipt date inside the interval; any other receivable changes no total |
| Reports.ResultadoOf | lib/utils.ts:84-85 | profit is revenue minus expenses; the margin is 0 without positive revenue, and otherwise profit over revenue times 100 |
| Reports.CalculateDRE | lib/utils.ts:65-93 | profit is revenue minus expenses, and the margin is profit as a percentage of revenue, 0 without positive revenue; `DreMatchesFluxoCaixa` gives its revenue and expenses |
| Reports.MargemBounds | lib/utils.ts:84-85 | with positive revenue and non-negative expenses the margin is at most 100, and negative exactly when expenses exceed revenue |
| Reports.DreMatchesFluxoCaixa | lib/utils.ts:65-93 | on the same inputs, DRE revenue, expenses and profit equal cash-flow inflow, outflow and balance |
| Reports.CalculateProjetoLucro | lib/utils.ts:95-120 | profit is revenue minus expenses, and the margin is profit as a percentage of revenue, 0 without positive revenue; `ProjetoLucroTotals` gives its revenue and expenses |
| Reports.ProjetoLucroTotals | lib/utils.ts:95-120 | a project's revenue is the sum of its inflow movements plus the sum of its received receivables, its expenses the sum of its outflow movements plus the sum of its paid payables, and profit and margin follow from those two totals |
| Reports.ProjetoLucroIgnoresOthers | lib/utils.ts:101-109 | items of another project, and receivables not received or payables not paid, change nothing |
| Reports.ProjetoLucroIgnoresDates | lib/utils.ts:101-109 | project profit does not depend on any date |
| Mappers.OrNull | lib/db/mappers.ts:30-32 | `?? null`: a missing key and an undefined value both become null, and a value is kept |
| Mappers.DbProjetoWriteOf | lib/db/mappers.ts:3-12 | a stored project row is recovered from its written columns plus `created_at` and `tenant_id` |
| Mappers.InsertedProjeto | lib/db/mappers.ts:3-12 | an insert stores a row exactly when every required column is defined, with the given `created_at` and `tenant_id`; the row holds the project's id, name, start date, status, description and end date as written |
| Mappers.MapProjetoFromDb | lib/db/mappers.ts:14-24 | `createdAt` is copied, and mapping back writes the row minus `tenant_id` and `created_at` |
| Mappers.MapProjetoToDb | lib/db/mappers.ts:26-36 | required fields are copied; absent optional ones become null and present ones, empty included, are kept |
| Mappers.ProjetoToDbIgnoresCreatedAt | lib/db/mappers.ts:26-36 | `createdAt` is never written |
| Mappers.ProjetoRoundTrip | lib/db/mappers.ts:14-36 | inserting a whole project and reading it back gives the project with the database's `createdAt` |
| Mappers.DbMovimentacaoWriteOf | lib/db/mappers.ts:38-49 | a stored movement row is recovered from its written columns plus `created_at` and `tenant_id` |
| Mappers.InsertedMovimentacao | lib/db/mappers.ts:38-49 | an insert stores a row exactly when every required column is defined; the row holds every written column, with the given `created_at` and `tenant_id` |
| Mappers.MapMovimentacaoFromDb | lib/db/mappers.ts:51-63 | `createdAt`, `valor` and `tipo` are copied, and mapping back writes the row minus `tenant_id` and `created_at` |
| Mappers.MapMovimentacaoToDb | lib/db/mappers.ts:65-76 | required fields are copied; absent optional ones become null |
| Mappers.MovimentacaoToDbIgnoresCreatedAt | lib/db/mappers.ts:65-76 | `createdAt` is never written |
| Mappers.MovimentacaoRoundTrip | lib/db/mappers.ts:51-76 | inserting a whole movement and reading it back gives the movement with the database's `createdAt` |
| Mappers.DbContaPagarWriteOf | lib/db/mappers.ts:78-91 | a stored payable row is recovered from its written columns plus `created_at` and `tenant_id` |
| Mappers.InsertedContaPagar | lib/db/mappers.ts:78-91 | an insert stores a row exactly when every required column is defined; the row holds every written column, including the payment date, with the given `created_at` and `tenant_id` |
| Mappers.MapContaPagarFromDb | lib/db/mappers.ts:93-107 | `createdAt`, `valor` and `status` are copied, and mapping back writes the row minus `tenant_id` and `created_at` |
| Mappers.MapContaPagarToDb | lib/db/mappers.ts:109-122 | required fields, the status included, are copied; absent optional ones become null |
| Mappers.ContaPagarToDbIgnoresCreatedAt | lib/db/mappers.ts:109-122 | `createdAt` is never written |
| Mappers.ContaPagarRoundTrip | lib/db/mappers.ts:93-122 | inserting a whole payable and reading it back gives the payable with the database's `createdAt` |
| Mappers.DbContaReceberWriteOf | lib/db/mappers.ts:124-137 | a stored receivable row is recovered from its written columns plus `created_at` and `tenant_id` |
| Mappers.InsertedContaReceber | lib/db/mappers.ts:124-137 | an insert stores a row exactly when every required column is defined; the row holds every written column, including the receipt date, with the given `created_at` and `tenant_id` |
| Mappers.MapContaReceberFromDb | lib/db/mappers.ts:139-153 | `createdAt`, `valor` and `status` are copied, and mapping back writes the row minus `tenant_id` and `created_at` |
| Mappers.MapContaReceberToDb | lib/db/mappers.ts:155-168 | required fields, the status included, are copied; absent optional ones become null |
| Mappers.ContaReceberToDbIgnoresCreatedAt | lib/db/mappers.ts:155-168 | `createdAt` is never written |
| Mappers.ContaReceberRoundTrip | lib/db/mappers.ts:139-168 | inserting a whole receivable and reading it back gives the receivable with the database's `createdAt` |
| Mappers.DbNotaFiscalWriteOf | lib/db/mappers.ts:170-182 | a stored invoice row is recovered from its written columns plus `created_at` and `tenant_id` |
| Mappers.InsertedNotaFiscal | lib/db/mappers.ts:170-182 | an insert stores a row exactly when every required column is defined; the row holds every written column, including the series, with the given `created_at` and `tenant_id` |
| Mappers.MapNotaFiscalFromDb | lib/db/mappers.ts:184-197 | `createdAt`, `valor` and `tipo` are copied, and mapping back writes the row minus `tenant_id` and `created_at` |
| Mappers.MapNotaFiscalToDb | lib/db/mappers.ts:199-211 | required fields are copied; absent optional ones become null |
| Mappers.NotaFiscalToDbIgnoresCreatedAt | lib/db/mappers.ts:199-211 | `createdAt` is never written |
| Mappers.NotaFiscalRoundTrip | lib/db/mappers.ts:184-211 | inserting a whole invoice and reading it back gives the invoice with the database's `createdAt` |
| Api.JsonOk | app/api/_utils.ts:3-5 | a success envelope carrying the data, with status 200 |
| Api.JsonError | app/api/_utils.ts:7-9 | a failure envelope carrying the message, with status 400 unless another is given |
| Text.Trim | app/api/auth/registro/route.ts:8-10 | the result is the slice of the text left after dropping whitespace at both ends: only whitespace precedes and follows it in the text; it is empty exactly when the text is all whitespace, and otherwise neither starts nor ends with whitespace |
| Text.Utf16Len | app/api/auth/registro/route.ts:16 | `length` in UTF-16 code units: between one and two per character, and equal to the character count exactly when no character lies beyond the Basic Multilingual Plane |
| Registro.InputOf | app/api/auth/registro/route.ts:8-11 | a missing field reads as empty; the tenant name, user name and e-mail are the field with its leading and trailing whitespace removed, empty exactly when the field is all whitespace; the password is taken untrimmed |
| Registro.Validate | app/api/auth/registro/route.ts:13-16 | the checks run in the order tenant name, user name, e-mail, password (present and at least 6 UTF-16 code units long, as `length` counts); each message is returned exactly when every earlier check passes and its own fails, and no message exactly when all pass |
| Registro.Provision | app/api/auth/registro/route.ts:13-55 | after the body is read: nothing already stored is lost; every answer is 200, 400 or 500; 400 exactly for invalid input or an error reported by user creation; a success envelope exactly with 200 |
| Registro.CreateUser | app/api/auth/registro/route.ts:21-28 | a reported error answers 400 with that error's message and is the only 400; a throw answers as the `catch` does; a missing id answers 500 with the fixed message; in those cases the backend is unchanged; when an id comes back, the confirmed user with the trimmed e-mail and the raw password is appended and nothing else is lost |
| Registro.UpsertPerfil | app/api/auth/registro/route.ts:31-36 | a failed upsert answers 500 with its error's message (or the `catch` answer) and leaves the backend unchanged, so no later call runs; a successful one records the profile under the user id; the users never change and nothing stored is lost |
| Registro.InsertTenant | app/api/auth/registro/route.ts:39-46 | a failed insert answers 500 with its error's message (or the `catch` answer) and leaves the backend unchanged, so no membership is written; a successful one records the tenant name under the returned id and keeps the profiles |
| Registro.InsertMembro | app/api/auth/registro/route.ts:48-55 | a failed insert answers 500 with its error's message (or the `catch` answer) and leaves the backend unchanged; a successful one appends the admin membership linking the two ids and answers 200 with both ids |
| Registro.ThrownResponse | app/api/auth/registro/route.ts:56-58 | anything thrown answers 500 with a failure body carrying the thrown message, or "Erro inesperado" when there is none |
| Registro.CallFailure | app/api/auth/registro/route.ts:26-57 | a call that reports an error answers with that error's message and the status the route gives that call; one that throws answers as the `catch` does |
| Registro.Signup | app/api/auth/registro/route.ts:5-59 | nothing stored is lost; every answer is 200, 400 or 500; a body that does not parse answers 500 with the parse error's message and changes nothing |
| Registro.Backend.constructor | app/api/auth/registro/route.ts:5-59 | an empty backend |
| Registro.Backend.Post | app/api/auth/registro/route.ts:5-17 | the backend and the answer after a request are those `Signup` gives for the backend before it |
| Registro.Backend.CreateAccount | app/api/auth/registro/route.ts:13-55 | the calls are made in order with an early return after each failure, and the backend and the answer are those `Provision` gives for the backend before it |
| Registro.InvalidInputTouchesNothing | app/api/auth/registro/route.ts:13-16 | invalid input answers 400 with its message and makes no backend change |
| Registro.ShortPasswordRefused | app/api/auth/registro/route.ts:16 | a password under 6 UTF-16 code units, counted untrimmed, is refused with 400 and nothing is created |
| Registro.BlankPasswordAccepted | app/api/auth/registro/route.ts:11-16 | a password of six spaces passes validation, because the password is not trimmed |
| Registro.AstralPasswordAccepted | app/api/auth/registro/route.ts:16 | three characters beyond the Basic Multilingual Plane count as six code units and pass the length check |
| Registro.OnlyTrimmedInputMatters | app/api/auth/registro/route.ts:8-11 | bodies that agree on the trimmed names and e-mail and on the raw password give the same outcome |
| Registro.SignupSucceeds | app/api/auth/registro/route.ts:21-55 | 200 exactly when the input is valid and every call succeeds with a user id; the backend then has the confirmed user, its profile, the tenant and one admin membership linking the new ids, and the answer carries both ids |
| Registro.NoRollback | app/api/auth/registro/route.ts:26-53 | nothing is undone: earlier users, memberships, profiles and tenants all remain, whatever fails |
| Registro.LaterFailureKeepsUser | app/api/auth/registro/route.ts:31-53 | when a step after user creation fails, the answer is 500 and the created user stays |
| Registro.ClientFailureChangesNothing | app/api/auth/registro/route.ts:18-58 | once the checks pass, a throw while building the admin client answers as the `catch` does and creates nothing |
| Registro.UserCreationFailureChangesNothing | app/api/auth/registro/route.ts:21-28 | a reported user-creation error answers 400 with its message, a throw answers 500 as the `catch` does, a missing id answers 500 with "Falha ao criar usuário"; the backend is unchanged in every case |
| Registro.PerfilFailureKeepsUser | app/api/auth/registro/route.ts:31-36 | a failed profile upsert answers 500 with its message (or the `catch` answer); the backend is the old one plus the new user, with no profile, tenant or membership |
| Registro.TenantFailureKeepsPerfil | app/api/auth/registro/route.ts:39-44 | a failed tenant insert answers 500 with its message (or the `catch` answer); the backend is the old one plus the new user and its profile, with no tenant or membership |
| Registro.MembroFailureKeepsTenant | app/api/auth/registro/route.ts:48-53 | a failed membership insert answers 500 with its message (or the `catch` answer); the backend is the old one plus the new user, its profile and the tenant, with no membership |
| Registro.StatusCodes | app/api/auth/registro/route.ts:5-59 | every answer is 200, 400 or 500; 400 exactly for invalid input or a reported user-creation error; success envelope exactly with 200 |
| Text.Contains | app/clientes/page.tsx:108-112 | `includes`: true exactly when the query occurs at some position |
| Text.Lower | app/clientes/page.tsx:106-111 | `toLowerCase`: same length, each character lowered on its own |
| Clientes.MapClienteFromDb | app/clientes/page.tsx:34-57 | id, name, person type and `createdAt` are copied, and each nullable column becomes the same optional field |
| Clientes.CamposBusca | app/clientes/page.tsx:108-110 | the six searched fields in the page's order: the name, always present, then document, e-mail, phone, company name and trade name |
| Clientes.Matches | app/clientes/page.tsx:108-111 | a client matches exactly when one of its six search fields is present, non-empty and, lower-cased, contains the query |
| Clientes.AlgumContem | app/clientes/page.tsx:108-112 | true exactly when some present, non-empty field, lower-cased, contains the query |
| Clientes.BlankQueryShowsAll | app/clientes/page.tsx:105-107 | a blank or whitespace-only query shows every client, in order |
| Clientes.Filtered | app/clientes/page.tsx:105-113 | the shown list is no longer than the loaded one and holds only loaded clients; a blank or whitespace-only query shows the loaded list as it is |
| Clientes.QueryShowsMatches | app/clientes/page.tsx:105-113 | otherwise the list is the order-keeping filter of the clients one of whose six search fields contains the trimmed, lower-cased query |
| Clientes.SearchIgnoresOtherFields | app/clientes/page.tsx:109-110 | clients that agree on the six search fields are shown or hidden together |
| Clientes.FormOf | app/clientes/page.tsx:160-183 | the form shows the kind and name as they are, each optional field as its value or as empty text exactly when it is absent or empty, and the country as stored or the default one when absent |
| Clientes.Payload | app/clientes/page.tsx:207-227 | the payload carries the tenant, kind and name; each optional column is null exactly when its text field is empty and that text otherwise; the country is never empty, and a non-empty one is kept |
| Clientes.EditThenSave | app/clientes/page.tsx:160-227 | editing and saving without changes writes null for every absent or empty optional field, and the default country when none is set |
| Clientes.SaveFormVazio | app/clientes/page.tsx:84-103 | saving the empty form with a name writes null in every optional column and "Brasil" as the country |
| Clientes.SubmitWrite | app/clientes/page.tsx:204-235 | no tenant stops before any write; otherwise the edited row is updated, or a row is inserted when none is being edited |
| Clientes.ClientesPage.constructor | app/clientes/page.tsx:77-103 | the page starts empty, with the empty form and nothing being edited |
| Clientes.ClientesPage.HandleEdit | app/clientes/page.tsx:160-183 | the form shows the client and the client is being edited; list, query and error stay |
| Clientes.ClientesPage.HandleSubmit | app/clientes/page.tsx:198-244 | the write chosen by `SubmitWrite`; on success the form is reset and the list reloaded; on failure the message is shown and form and list are kept |
| Text.DatePart | app/contas-pagar/page.tsx:79 | `split('T')[0]`: the longest prefix without a 'T' |
| ContasPagar.AssembleConta | app/contas-pagar/page.tsx:41-54 | a new payable gets the fresh id and is pending and unpaid; an edited one keeps its status and payment date; `createdAt` is now; an empty project or note becomes absent |
| ContasPagar.SubmitRequest | app/contas-pagar/page.tsx:56-68 | a PUT to the edited id when editing, otherwise a POST, carrying the assembled record |
| ContasPagar.EditForm | app/contas-pagar/page.tsx:74-86 | the due date is cut before the first 'T', an absent project or note shows as empty, the amount is shown through the page's formatter, and description, supplier and category are copied |
| ContasPagar.NewContaIsPendente | app/contas-pagar/page.tsx:41-54 | a new payable is POSTed with the fresh id, pending and unpaid |
| ContasPagar.EditThenSubmit | app/contas-pagar/page.tsx:39-86 | editing and saving without changes PUTs the payable with a cut due date, absent empty fields, and `createdAt` reset to now |
| ContasPagar.MarcarPaga | app/contas-pagar/page.tsx:95-102 | nothing for an id not in the list; otherwise a PUT of the first payable with that id, paid today, with every other field unchanged |
| ContasPagar.MarcarPagaSettles | app/contas-pagar/page.tsx:95-102 | after marking, the payable is paid, dated, and no longer offered the mark-paid action |
| ContasPagar.PodeMarcarPaga | app/contas-pagar/page.tsx:297-297 | the mark-paid button is offered exactly for the rows whose status badge is not green, on any day |
| ContasPagar.StatusColor | app/contas-pagar/page.tsx:126-133 | green exactly when paid; red exactly when overdue by status, or not paid and due before now; yellow otherwise |
| ContasPagar.ContasPagarPage.constructor | app/contas-pagar/page.tsx:14-22 | the page starts with no payables, the empty form and nothing being edited |
| ContasPagar.ContasPagarPage.HandleEdit | app/contas-pagar/page.tsx:74-86 | the form shows the payable and the payable is being edited |
| ContasPagar.ContasPagarPage.Reload | app/contas-pagar/page.tsx:28-37 | the list becomes what the API returned, and stays as it was on an error |
| ContasPagar.ContasPagarPage.HandleSubmit | app/contas-pagar/page.tsx:39-72 | sends `SubmitRequest` of the form, resets the form and reloads |
| ContasPagar.ContasPagarPage.HandleMarcarPaga | app/contas-pagar/page.tsx:95-110 | sends `MarcarPaga`'s request; for an unknown id nothing is sent and nothing is reloaded |
| ContasReceber.LoadedContas | app/contas-receber/page.tsx:28-31 | the stored receivables reordered by ascending due date |
| Seqs.SortBy | app/contas-receber/page.tsx:30 | `sort` with a comparator: the result is ordered by the key and is a permutation of the input |
| ContasReceber.CreatedAt | app/contas-receber/page.tsx:45 | when editing, the `createdAt` of the receivable found in the list if it has one, otherwise now |
| ContasReceber.AssembleConta | app/contas-receber/page.tsx:35-46 | always pending with no receipt date, the edited id or a fresh one, and an empty project or note made absent |
| ContasReceber.SubmitPatch | app/contas-receber/page.tsx:35-46 | the record without a `dataRecebimento` key: merging it gives the record, with the old receipt date kept |
| ContasReceber.SubmitCall | app/contas-receber/page.tsx:48-52 | an update of the edited id with the record when editing, otherwise a save |
| ContasReceber.MarcarRecebidaPatch | app/contas-receber/page.tsx:79-88 | the patch names only the status (received) and the receipt date (today's date part); merged into any receivable it changes those two fields and keeps the rest |
| ContasReceber.MarcarRecebidaKeepsTheRest | app/contas-receber/page.tsx:79-86 | marking as received changes only the status and the receipt date (today) |
| ContasReceber.MarcarRecebidaCounts | app/contas-receber/page.tsx:79-86 | a receivable marked as received today counts in the cash flow of exactly the intervals that hold today |
| ContasReceber.EditingRecebidaRevertsToPendente | app/contas-receber/page.tsx:40-50 | saving an edited received receivable makes it pending, keeps its receipt date, and drops it from every cash flow |
| ContasReceber.EditForm | app/contas-receber/page.tsx:58-70 | the due date is cut before the first 'T', an absent project or note shows as empty, the amount is shown through the page's formatter, and description, client and category are copied |
| ContasReceber.EditThenSubmit | app/contas-receber/page.tsx:33-70 | editing and saving without changes keeps `createdAt` and the receipt date, cuts the due date, drops empty fields and makes the receivable pending |
| ContasReceber.PodeMarcarRecebida | app/contas-receber/page.tsx:276-276 | the mark-received button is offered exactly for the rows whose status badge is not green, on any day |
| ContasReceber.MarcarRecebidaSettles | app/contas-receber/page.tsx:79-88 | after `handleMarcarRecebida`'s patch the receivable is received, dated today, and no longer offered the mark-received button of page.tsx:276 |
| ContasReceber.StatusColor | app/contas-receber/page.tsx:105-112 | green exactly when received; red exactly when overdue by status, or not received and due before now; yellow otherwise |
| Badges.ClassesDistinct | app/contas-receber/page.tsx:106-111 | the green, red and yellow badges carry pairwise different class strings, so the colour a status gets is visible |
| ContasReceber.ContasReceberPage.constructor | app/contas-receber/page.tsx:11-22 | the page starts with no receivables, the empty form and nothing being edited |
| ContasReceber.ContasReceberPage.LoadContas | app/contas-receber/page.tsx:28-31 | the list becomes `LoadedContas` of the store |
| ContasReceber.ContasReceberPage.HandleEdit | app/contas-receber/page.tsx:58-70 | the form shows the receivable and the receivable is being edited |
| ContasReceber.ContasReceberPage.HandleSubmit | app/contas-receber/page.tsx:33-56 | makes `SubmitCall`'s storage update or save, resets the form and reloads |
| ContasReceber.ContasReceberPage.HandleDelete | app/contas-receber/page.tsx:72-77 | only when confirmed, the store deletes the id and the list is reloaded |
| ContasReceber.ContasReceberPage.HandleMarcarRecebida | app/contas-receber/page.tsx:79-88 | nothing for an id not in the list; otherwise the store applies the two-field patch and the list is reloaded |
| NotasFiscais.FormVazio | app/notas-fiscais/page.tsx:14-23 | the empty form is an outgoing invoice issued today |
| NotasFiscais.LoadedNotas | app/notas-fiscais/page.tsx:29-32 | the stored invoices reordered newest issue date first |
| NotasFiscais.CreatedAt | app/notas-fiscais/page.tsx:46 | when editing, the `createdAt` of the invoice found in the list if it has one, otherwise now |
| NotasFiscais.AssembleNota | app/notas-fiscais/page.tsx:36-47 | the edited id or a fresh one, and empty series, project or note made absent |
| NotasFiscais.SubmitCall | app/notas-fiscais/page.tsx:49-53 | an update of the edited id whose merge gives exactly the record, otherwise a save |
| NotasFiscais.SubmitReplacesEdited | app/notas-fiscais/page.tsx:49-50 | saving an edited invoice puts the record in place of the first stored invoice with that id, and changes nothing when none has it |
| NotasFiscais.EditForm | app/notas-fiscais/page.tsx:59-72 | the issue date is cut before the first 'T', an absent series, project or note shows as empty, the amount is shown through the page's formatter, and number, kind and counterparty are copied |
| NotasFiscais.EditThenSubmit | app/notas-fiscais/page.tsx:34-72 | editing and saving without changes keeps `createdAt`, cuts the issue date and drops empty optional fields |
| NotasFiscais.NumeroDisplay | app/notas-fiscais/page.tsx:262 | the number, followed by " - Série " and the series exactly when a non-empty series is present |
| NotasFiscais.NotasFiscaisPage.constructor | app/notas-fiscais/page.tsx:10-23 | the page starts with no invoices, the empty form and nothing being edited |
| NotasFiscais.NotasFiscaisPage.LoadNotas | app/notas-fiscais/page.tsx:29-32 | the list becomes `LoadedNotas` of the store |
| NotasFiscais.NotasFiscaisPage.HandleEdit | app/notas-fiscais/page.tsx:59-72 | the form shows the invoice and the invoice is being edited |
| NotasFiscais.NotasFiscaisPage.HandleSubmit | app/notas-fiscais/page.tsx:34-57 | makes `SubmitCall`'s storage update or save, resets the form to today and reloads |
| NotasFiscais.NotasFiscaisPage.HandleDelete | app/notas-fiscais/page.tsx:74-79 | only when confirmed, the store deletes the id and the list is reloaded |

## Left out

- The signup route has no rate limiter and no kill switch, so none is modelled.
- Database and auth-provider calls are outcome parameters. This covers Supabase in the signup route and the tenant lookup and writes of the clients page. The internals of `getTenantId` are not part of this model.
- Registro.Signup: a thrown call changes no backend state, and a user creation that returns no id records no user. The provider might in fact have created one; the model cannot see that.
- `String(...)` coercion of non-string body fields in the signup route: every field is either a string or missing.
- Floating point: amounts are `real`, so rounding is not modelled. `parseFloat` of form text and `toString` of amounts are parameters, and `Number()` on a non-numeric `valor` column is not modelled.
- Dates are strings placed on the time line by a `time` parameter. Invalid dates, and the NaN they produce in comparisons and sort comparators, are not modelled. "Now" (`new Date()`) and fresh ids (`crypto.randomUUID`) are parameters, and so is the answer of `confirm()`.
- Seqs.SortBy: `Array.prototype.sort` is modelled on `seq` as an insertion sort proved sorted and a permutation of its input. The order among equal keys (stability) is not stated. The sort runs on a freshly parsed array, so the in-place update has no other observer.
- Browser storage mechanics are not modelled: JSON serialisation, `localStorage` itself and how the presence of `window` is detected. The presence of `window` is a constant of the store.
- Text.Lower: lower-casing covers ASCII and Latin-1 letters, not the whole of Unicode.
- Reports.Within: follows `isWithinInterval` as date-fns from version 3 on defines it, which puts the two bounds in order first. The version is taken from the named `ptBR` import of `date-fns/locale/pt-BR`, which needs version 3 or later. Version 2 throws on a reversed interval, and that is not modelled. The reports page only passes month ranges, whose start precedes their end.
- The pages' rendering, the payables page's fetch calls, and the clients page's `load` and `handleDelete` are not modelled; neither are the other pages, the CRUD API routes and `fetchJson`. Only the requests and the lists they return appear.
- The `Cliente` record is not declared in `types/index.ts`; its fields are those `mapClienteFromDb` builds.
- Concurrency (`Promise.all`, React effects and the asynchronous `setState`) is not modelled. A handler's state updates are applied in the order the code makes them.
