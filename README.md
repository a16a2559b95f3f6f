# Inventory audit system — a Dafny model

The system runs stock audits ("auditorias") for the stores ("entidades") of a retail company.
An audit is opened for a store with a scope of product categories. Each scope row starts with the
store's system stock for its category. Staff type in the counted quantities, and the server
records each row's difference. Once finalised, an audit feeds a consolidated report of
differences per category. The system stock itself comes from two places: a spreadsheet import and
a paged product feed from the Varejonline ERP.

The model covers:

- the backend's data operations (`crud.py`): category listing with accent-insensitive
  de-duplication, stock totals, audit creation, visibility, saving counts, finalising, the
  last-update setting and the consolidated report. A `Crud.Database` class holds one sequence
  per table; its methods change the tables in place;
- the stock-sheet import loop (`main.py`, `importar_planilha_geral`), with its all-or-nothing
  commit;
- the Varejonline paging loop and product formatting (`services/varejonline_service.py`);
- the decision rules of the browser pages:
  - the audit page: row classes, input ids, saved counts, the keyword check and "confirm count";
  - the report page: per-category sums, chart visibility and orientation, sign classes, the
    query string and the entity filter;
  - the stock-freshness panel;
  - the navigation bar: token gate, admin links and the active link;
  - the sign-up form, the user-administration page and the audit list.

Module layout:

- shared modules: `Wrappers`, `Text` (JavaScript and Python trimming, upper-casing, `split`),
  `Decimal` (integer printing and parsing), `Clock`, `Models` (the table rows), `Normalize`,
  `Sorting`;
- backend modules: `Crud`, `Report`, `SheetImport`, `Varejonline`;
- page modules, one per page: `StatusEstoque` (`script.js`), `Nav`, `Signup`, `Usuarios`,
  `Auditorias`, `AuditoriaDetalhe`, `Relatorio`.

The clock, the HTTP server and the browser's answers are parameters. "Now" is a
`Clock.DateTime`, the Varejonline server is a function from requests to answers, and each page
handler takes the outcome of its `fetch` as an argument.

## Model

| member | source | states |
|---|---|---|
| Normalize.NormalizeString | crud.py:15-18 | empty text gives ""; otherwise every character of the key is upper-case, is not a combining mark and does not decompose further, and the key has no white space at either end |
| Normalize.NormalizeIdempotent | crud.py:15-18 | normalising a key again returns the same key |
| Normalize.NormalizeIgnoresCase | crud.py:18 | upper-casing the text first gives the same key |
| Normalize.NormalizeIgnoresAccents | crud.py:17 | stripping the accents first gives the same key |
| Normalize.NormalizeAcao | crud.py:15-18 | " ação " gives the key "ACAO" |
| Normalize.RemoveMarks | crud.py:17 | the result has no combining mark, keeps only characters of the input, and is the input itself when the input has no mark |
| Normalize.Decompose | crud.py:17 | after NFD decomposition no precomposed Latin-1 letter is left |
| Crud.GruposDistintos | crud.py:33 | `SELECT DISTINCT grupo … IS NOT NULL`: pairwise distinct, and contains every non-null group of every product and nothing else |
| Crud.Representantes | crud.py:34-39 | the `grupos_unicos` values: no two share a key, each is a non-empty input group, and every non-empty group has its key represented |
| Crud.GruposUnicos | crud.py:34-39 | the dictionary-filling loop returns exactly `Representantes` of the query |
| Crud.ObterTodasCategoriasImportadas | crud.py:32-40 | the listing is the sorted representatives of the distinct groups under `normalize_string` |
| Crud.CategoriasOrdenadasSemRepeticao | crud.py:32-40 | the listing is sorted and no two of its entries share a normalised key |
| Crud.CategoriasSaoGrupos | crud.py:32-40 | every listed category is a non-empty group some product has |
| Crud.CategoriasCompletas | crud.py:32-40 | every non-empty group of every product has its key in the listing |
| Sorting.SortStrings | crud.py:40 | `sorted`: ordered and a permutation of its input |
| Crud.EstoqueConcat | crud.py:42-48 | the stock total over two groups of rows is the sum of their totals |
| Crud.CalcularEstoquePorCategoria | crud.py:42-48 | with no stock row of the entity in the category the total is 0 (`total_estoque or 0`); non-negative quantities give a non-negative total |
| Crud.ILike | crud.py:45 | `ilike` without wildcards: same length and, position by position, the same character or the same ASCII letter in the other case |
| Crud.EstoqueIgnoraCaixa | crud.py:45 | category names equal up to ASCII letter case (`ilike`) give the same total |
| Crud.EntidadeAlvo | crud.py:52-58 | a non-admin always gets their own entity; an admin gets the payload's entity, and an error exactly when it is 0 or missing |
| Crud.BuscarEntidade | crud.py:60 | the entity with that id when one exists, `None` exactly when none does |
| Crud.NomeAuditoriaPartes | crud.py:65-66 | the name is "Auditoria ", the entity's name, " - " and the time "dd/mm/yyyy HH:MM", whose fields read back as the creation time |
| Clock.FormatLidoDeVolta | crud.py:65 | every field of `strftime('%d/%m/%Y<sep>%H:%M')` reads back as the reading's field, with the separator between date and time |
| Crud.NovaAuditoria | crud.py:66-79 | the stored audit has the new id, the entity, the responsible person, the creation time and no `data_fim`, with the generated name and code |
| Crud.CodigoReferencia | crud.py:79 | the reference code starts with "AUD-" |
| Crud.CodigoReferenciaPartes | crud.py:79 | "AUD-<year>-<id>" splits at '-' into its three parts, and the last reads back as the id |
| Crud.CodigoReferenciaUnico | crud.py:79 | audits with different ids get different reference codes |
| Crud.EscopoInicial | crud.py:81-88 | one scope row per requested category, in request order and numbered consecutively, all of the new audit, each holding the entity's stock total for its category, nothing counted, no difference and no count time |
| Crud.CriarEscopo | crud.py:81-88 | the scope loop builds exactly `EscopoInicial`: each row holds the entity's stock total for its category and nothing counted |
| Crud.Database.CriarAuditoriaComEscopo | crud.py:51-92 | the admin error, the unknown-entity `None`, and a new audit exactly when the target entity is resolved and exists: the new audit (named, coded, open) appended with its scope rows, every other table unchanged and the table invariant kept |
| Crud.DetalheDaNova | crud.py:51-104 | a newly created audit is what `get_auditoria_detalhes` finds for its id, with exactly its new scope rows |
| Crud.ListarAuditorias | crud.py:94-98 | exactly the audits the user sees (all for admin, the user's entity's otherwise), newest id first |
| Crud.GetAuditoriaDetalhes | crud.py:100-104 | the audit with that id when the user sees it, with exactly its scope rows in the table's id order; `None` exactly when no visible audit has that id |
| Crud.EscopoDa | crud.py:110 | the scope rows of an audit are the rows with its id |
| Crud.UltimoEscopo | crud.py:111 | the row `escopo_map` holds for a name: the last, in the table's id order, of the audit's rows with that name |
| Crud.MontarEscopoMap | crud.py:111 | the dictionary comprehension maps exactly the audit's names, each to its last row in the table's id order |
| Crud.UltimaContagem | crud.py:114-119 | the count that wins for a name is the last input item with it; `None` exactly when no item has it |
| Crud.ContagemAplicada | crud.py:117-119 | a counted row's difference is counted minus system quantity |
| Crud.AplicarContagens | crud.py:106-122 | after saving, only rows of this audit whose name appears in the input change; ids, names and system quantities never change; each changed row has `diferenca = qtd_contada - qtd_sistema` and the counting time |
| Crud.ContagemAtualizaLinha | crud.py:114-119 | every name the audit has gets its selected row updated with the last count given for it |
| Crud.AplicarMaisUma | crud.py:114-119 | one more input item updates its name's selected row and nothing else |
| Crud.AplicarContagensIdempotente | crud.py:106-122 | saving the same counts twice leaves the table as saving them once |
| Crud.AtualizarEscopo | crud.py:114-119 | the update loop over the counts computes exactly `AplicarContagens` |
| Crud.Database.SalvarContagensManuais | crud.py:106-122 | an audit the user cannot see changes nothing and yields `None`; otherwise the scope table becomes `AplicarContagens`, with no check on `data_fim`, and the result is the reloaded detail |
| Crud.Finalizada | crud.py:124-133 | the first audit with that id the user sees gets `data_fim` set to now when it has none; every other audit, and that one when already finalised, is unchanged; with no such audit nothing changes |
| Crud.FinalizarIdempotente | crud.py:128-131 | finalising again, at any later time, changes nothing |
| Crud.Database.FinalizarAuditoria | crud.py:124-133 | the audit table becomes `Finalizada`; the result is `None` exactly when the user cannot see the audit |
| Crud.GetUltimaAtualizacaoEstoque | crud.py:181-183 | the stored value, or "Nunca atualizado" when the key is absent |
| Crud.Database.SetUltimaAtualizacaoEstoque | crud.py:185-191 | the one key is set, or added, to the "dd/mm/yyyy às HH:MM" stamp; the getter then returns it; nothing else changes |
| Crud.CarimboAtualizacaoPartes | crud.py:187 | the stamp is 19 characters with " às " between date and time, and each field reads back as the current time |
| Report.LinhasConsolidadas | crud.py:199-210 | exactly the scope rows of finalised audits, of the entity when one is given |
| Report.Categorias | crud.py:212 | `GROUP BY categoria_nome`: each name of the rows once |
| Report.SomaDasDiferencas | crud.py:202-216 | a group's counted total minus its system total is the sum of its rows' differences |
| Report.Agrupadas | crud.py:212-216 | one aggregated entry per category, in group order |
| Report.NaoNulas | crud.py:217 | exactly the entries whose difference is not zero |
| Sorting.SortByKeyDesc | crud.py:225 | `sort(key=…, reverse=True)`: ordered by descending key, a permutation, and stable on equal keys |
| Report.GetDiferencasConsolidadas | crud.py:194-227 | the loop and sort compute the sorted non-zero groups |
| Report.ConsolidadoCorreto | crud.py:194-227 | every report entry is a category of the finalised rows, with its system and counted sums and a non-zero difference equal to counted minus system |
| Report.ConsolidadoCompleto | crud.py:194-227 | every category whose sums differ is in the report |
| Report.ConsolidadoOrdenado | crud.py:225 | the report is ordered by absolute difference, largest first, names no category twice, and keeps the query's order among equal absolute differences |
| SheetImport.Quantidade | main.py:118-119 | an empty cell is 0 and an integer cell is itself |
| SheetImport.QuantidadeDeTexto | main.py:119 | a number typed as text reads as that number |
| SheetImport.AcaoDaLinha | main.py:112-119 | a missing or blank item is skipped; otherwise the stripped name is written with the cell's quantity, or the row is rejected when the quantity does not parse |
| SheetImport.ProdutoPorNome | main.py:121 | the first product with that name, `None` exactly when there is none |
| SheetImport.EstoqueDe | main.py:128 | the first stock row of that product and entity, `None` exactly when there is none |
| SheetImport.GravarLinha | main.py:121-133 | a known product is reused; an unknown one is created with its name as group and counted; the stock counter rises by exactly one; the only failure is a missing entity |
| SheetImport.GravarNaSessao | main.py:121-133 | the loop body computes exactly `GravarLinha` |
| SheetImport.Passo | main.py:111-133 | a skipped row changes nothing, a rejected row fails, and a written row adds one to the stock counter and only appends products, each with its name as group |
| SheetImport.ImportarLinhas | main.py:111-133 | the stock counter rises by the number of rows not skipped, and `produtos_criados` counts exactly the appended products |
| SheetImport.ImportarNaSessao | main.py:111-133 | the row loop computes exactly `ImportarLinhas` |
| SheetImport.Importar | main.py:106-107 | a sheet without `Item` or `Estoque atual` fails before any row |
| SheetImport.GravarPreserva | main.py:121-133 | a written row keeps product ids ascending, names unique and stock rows pointing at products |
| SheetImport.ImportarPreserva | main.py:111-133 | the whole loop keeps those constraints |
| SheetImport.GravarGrava | main.py:128-133 | after a row, its product holds the row's quantity at the entity |
| SheetImport.GravarIsola | main.py:128-133 | a row touches no other (product, entity) pair |
| SheetImport.UltimaLinhaVence | main.py:111-133 | after an import each named product holds the last row's quantity at the entity; every other pair keeps its quantity |
| SheetImport.GravarLinhaComoEscrito | main.py:121-133 | as written under `autoflush=False`: the stock lookup sees only flushed rows; creating a product flushes every pending row; a known product leaves pending rows pending; the stock counter rises by one |
| SheetImport.ImportarLinhasComoEscrito | main.py:111-133 | the row loop as written: the stock counter rises by the number of rows not skipped |
| SheetImport.ComoEscritoSemPendentes | main.py:125-132 | with nothing pending, a row as written gives the same tables and the same failure as with every row visible |
| SheetImport.LinhaRepetidaDuplicaEstoque | main.py:128-132 | two rows naming the same new product: as written the entity ends with two stock rows whose category total is the sum of both quantities; with every row visible it ends with one row holding the last quantity |
| SheetImport.MensagemLeContagens | main.py:137 | the message opens with "Estoque geral atualizado! " and both counters read back from it |
| SheetImport.LinhaRejeitadaFalha | main.py:119-141 | one unparsable quantity fails the whole import |
| SheetImport.SemRejeicaoSucesso | main.py:111-138 | with no rejected row and an existing entity the import succeeds |
| SheetImport.FalhaPersiste | main.py:139-141 | once a prefix of the rows fails, the whole import fails the same way |
| SheetImport.ImportarPlanilhaGeral | main.py:101-141 | on failure the database is unchanged; on success the tables are the import's result, the last-update stamp is set and the message carries both counters |
| Varejonline.Get | services/varejonline_service.py:64-71 | `dict.get(key, default)`: the default only for a missing key, `None` for `null` |
| Varejonline.Pedido | services/varejonline_service.py:33-39 | each request asks for 300 items from `inicio`, with the change filter only when it is given and not empty |
| Varejonline.DesfechoDe | services/varejonline_service.py:43-60 | an HTTP error (with the corrected text, the response body), a transport failure or an unreadable body is an error with its message; an empty list ends the paging; a non-empty list is a page |
| Varejonline.ObterProdutos | services/varejonline_service.py:17-75 | the k-th request starts at 300·k; every page before the last has items; an empty last page gives one formatted product per fetched item, in order, and no error; an error discards everything and returns its message (an HTTP error with the corrected text, the response body) |
| Varejonline.JuntarPaginas | services/varejonline_service.py:51 | the fetched items are the pages' items concatenated in order |
| Varejonline.PrimeiroGrupo | services/varejonline_service.py:66-69 | the index of the first `GRUPO`-level category, `None` exactly when there is none |
| Varejonline.Grupo | services/varejonline_service.py:64-69 | the name of the first `GRUPO` category, otherwise `nome_grupo`, defaulting to "Sem Grupo" |
| Varejonline.GrupoDoItem | services/varejonline_service.py:64-69 | the category loop with `break` computes exactly `Grupo` |
| Varejonline.Formatar | services/varejonline_service.py:70-73 | the name is `descricao`, "Nome Indisponível" only when the key is missing and `None` when it is `null`; the group is `Grupo`'s |
| Varejonline.FormatarProdutos | services/varejonline_service.py:62-73 | one formatted product per item, in order |
| Varejonline.TextoDoErro | services/varejonline_service.py:55 | an HTTP error is reported with the response's text |
| Varejonline.TextoDoErroComoEscrito | services/varejonline_service.py:55 | as written: every 4xx/5xx response gives "Sem resposta do servidor"; only a truthy response gives its text |
| Varejonline.TextoDoErroComoEscritoDescartaCorpo | services/varejonline_service.py:55 | as written, every 4xx/5xx response is reported as "Sem resposta do servidor" |
| Varejonline.TextoDoErroContraExemplo | services/varejonline_service.py:55 | a 404 with body "Not Found" is reported without its body |
| StatusEstoque.VerificarStatusEstoque | frontend/script.js:16-47 | `null` leaves the panel unchanged; a failed fetch shows the connection error; "Nunca" and the backend's "Nunca atualizado" both give the outdated panel; a fresh panel always shows the stored text |
| StatusEstoque.VerificarStatusEstoqueComoEscrito | frontend/script.js:16-47 | as written: `null` leaves the panel unchanged, a failed fetch shows the connection error, only "Nunca" gives the outdated panel, and a fresh panel shows the stored text |
| StatusEstoque.CorrecaoSoNoNuncaAtualizado | frontend/script.js:26 | the corrected panel differs from the written one only on "Nunca atualizado" |
| StatusEstoque.PainelDaData | frontend/script.js:27-41 | the connection error exactly when the text has no " às "; otherwise the updated or outdated panel showing the text |
| StatusEstoque.Fresco | frontend/script.js:30-33 | fresh only on the same day of the month; the same minute within the limit is fresh; more than 30 minutes later is not |
| StatusEstoque.CarimboLidoDeVolta | frontend/script.js:27-30 | the stamp the backend stores splits at " às " and is rebuilt and read as the same moment |
| StatusEstoque.PainelDoCarimbo | frontend/script.js:26-41 | for every stored stamp the panel is fresh exactly when at most 30 minutes have passed and the day of the month matches |
| StatusEstoque.SemSeparadorFalha | frontend/script.js:27-46 | text without " às " ends in the connection-error panel |
| StatusEstoque.NuncaAtualizadoComoEscrito | frontend/script.js:26 | as written, the backend's "Nunca atualizado" ends in the connection-error panel |
| StatusEstoque.SemSeparadorNoNunca | frontend/script.js:27 | "Nunca atualizado" has no " às " to split at |
| StatusEstoque.IsoLocal | frontend/script.js:30 | a parsed date has a month in 1..12 and a day in 1..31 |
| Nav.Links | frontend/nav.js:64-73 | the four administration links are present exactly for an admin; the others always are |
| Nav.NoMaximoUmAtivo | frontend/nav.js:83-92 | on any path at most one menu link is active |
| Nav.PaginaDoLinkAtiva | frontend/nav.js:85-88 | each link is active on its own page; on "/" and "/index.html" only the home link is |
| Nav.Navegacao.MarcarAtivos | frontend/nav.js:81-92 | each link is marked exactly when the active-link rule holds for it; nothing else changes |
| Nav.Navegacao.Carregar | frontend/nav.js:4-92 | no placeholder changes nothing; no token redirects to /login unless already there; a 401 or any other failure removes the token and redirects; otherwise the greeting and the role's links |
| Nav.Navegacao.Sair | frontend/nav.js:94-100 | logout removes the token and redirects to /login |
| Signup.Validar | frontend/signup.js:27-65 | the three guards in order, each exactly when the earlier ones pass; a sent body's password equals its confirmation |
| Signup.EnviaSeValido | frontend/signup.js:33-65 | a submission is sent exactly when all guards pass, with trimmed company and e-mail and the password untouched |
| Signup.CorpoEstavel | frontend/signup.js:27-65 | retyping the sent body gives the same body |
| Signup.Desfecho | frontend/signup.js:67-100 | success exactly for a 2xx answer; a failure shows `detail`, else "Erro <status>", or the exception's message |
| Signup.Submeter | frontend/signup.js:27-100 | a request goes out exactly when validation passes, with the validated body |
| Signup.SucessoSoComFormularioValido | frontend/signup.js:41-82 | a success message implies a valid form and a 2xx answer |
| Signup.ErroMostraDetalhe | frontend/signup.js:78 | a failed answer with a non-empty `detail` shows exactly it |
| Usuarios.Carregar | frontend/usuarios.js:70-83 | a non-admin is redirected to "/"; only a failed fetch shows the error; the empty state appears exactly for `null`, at most one entry, or no store user; otherwise one row per user |
| Usuarios.CarregarComoEscrito | frontend/usuarios.js:70-83 | as written: a non-admin is redirected to "/"; a failed fetch and a `null` list both show the error; the empty state exactly for at most one entry or no store user; otherwise one row per user |
| Usuarios.CorrecaoSoNoNulo | frontend/usuarios.js:75-78 | the corrected load differs from the written one only on a `null` list |
| Usuarios.ListaNulaComoEscrito | frontend/usuarios.js:76 | as written, a `null` list ends in the error message instead of the empty state |
| Usuarios.UsuariosDeLoja | frontend/usuarios.js:76 | zero store users exactly when no entry has role "user" |
| Usuarios.RenderLinha | frontend/usuarios.js:85-143 | admins get no actions and the "Ativo" badge; store users get Ativo/Inativo from `is_active` and a toggle titled Desativar exactly when active; the entity column is the upper-cased name, else "Todas" or "-" |
| Usuarios.RenderTabela | frontend/usuarios.js:85-143 | one row per user, in order |
| Usuarios.LinhaCoerente | frontend/usuarios.js:90-133 | a store user's badge, toggle and row shading always tell the same state |
| Usuarios.AlternarComoRecarregar | frontend/usuarios.js:253-265 | patching a row after a status change gives the row a reload would render |
| Usuarios.EditarComoRecarregar | frontend/usuarios.js:224-241 | patching a row after an entity change gives the row a reload would render |
| Usuarios.ValidarNovo | frontend/usuarios.js:187-204 | the required-fields guard before the length guard; the body carries the trimmed e-mail, the password and `parseInt` of the entity |
| Usuarios.EntidadeEnviada | frontend/usuarios.js:190-204 | the chosen entity is sent as its id |
| Usuarios.ValidarReset | frontend/usuarios.js:287-300 | nothing happens without a chosen user; then an empty password or one shorter than 8 characters is refused; otherwise it is sent as typed |
| Usuarios.MesmaRegraDeSenha | frontend/usuarios.js:196 | the new-user, reset and sign-up forms accept exactly the same passwords |
| Auditorias.RenderLinha | frontend/auditorias.js:45-66 | the badge is bg-success exactly for "Finalizada"; the delete button appears exactly for an admin |
| Auditorias.DetalhesLevaAoId | frontend/auditorias.js:66 | the details link carries the audit's id |
| Auditorias.ValidarNova | frontend/auditorias.js:127-150 | refused exactly for an empty responsible person or no category; the body carries both, and `entidade_id` exactly for an admin |
| Auditorias.EntidadeSoDoAdmin | frontend/auditorias.js:143-150 | admin and store bodies differ only in the entity |
| Auditorias.ChipDaOpcao | frontend/auditorias.js:100-108 | a category name without '(' shows as its trimmed name in the chip |
| Auditorias.ValidarExclusao | frontend/auditorias.js:179-193 | the password is checked first, then a reason of at least 10 characters |
| Auditorias.ExclusaoEnviada | frontend/auditorias.js:184-193 | a deletion is sent exactly with a password and a reason of at least 10 characters |
| AuditoriaDetalhe.RenderCabecalho | frontend/auditoria-detalhe.js:19-26 | the badge says "Finalizada" and is green exactly when `data_fim` is set |
| AuditoriaDetalhe.RenderLinha | frontend/auditoria-detalhe.js:31-60 | the class tells the difference's sign; the input is editable exactly when not finalised; the button targets the input and carries the system quantity; the value is blank exactly when not counted, else the count |
| AuditoriaDetalhe.SinaisCoerentes | frontend/auditoria-detalhe.js:32-37 | the row colour and the warning icon tell the same sign |
| AuditoriaDetalhe.MontarLinhas | frontend/auditoria-detalhe.js:31-62 | the loop builds the corrected table, one row per scope row with ids "qtd-contada-<row>", and sets `temDiferencas` exactly when some row differs |
| AuditoriaDetalhe.RenderLinhas | frontend/auditoria-detalhe.js:31-62 | one row per scope row, in order, with its category, system quantity and difference; editable exactly when open; row i's input and button use the corrected id "qtd-contada-i" |
| AuditoriaDetalhe.RenderLinhasComoEscrito | frontend/auditoria-detalhe.js:31-62 | as written: the same rows, each input's and button's id made from the category name |
| AuditoriaDetalhe.Hifenizar | frontend/auditoria-detalhe.js:39 | `replace(/\s+/g, '-')` leaves no white space |
| AuditoriaDetalhe.HifenizarSemEspacos | frontend/auditoria-detalhe.js:39 | text without white space keeps its id |
| AuditoriaDetalhe.IdsComoEscritoSemEspacos | frontend/auditoria-detalhe.js:39 | different names without white space get different ids even as written |
| AuditoriaDetalhe.IdsComoEscritoColidem | frontend/auditoria-detalhe.js:39-159 | as written, "A B" and "A-B" share an id and the second row's button fills the first row's input |
| AuditoriaDetalhe.InputIdInjetivo | frontend/auditoria-detalhe.js:39 | the corrected ids are different for different rows |
| AuditoriaDetalhe.RenderIdsUnicos | frontend/auditoria-detalhe.js:39-50 | the rendered table has unique ids, and each button targets its own row |
| AuditoriaDetalhe.PrimeiroComId | frontend/auditoria-detalhe.js:156 | `getElementById`: the first input with that id, `None` exactly when there is none |
| AuditoriaDetalhe.BotaoPreencheSuaLinha | frontend/auditoria-detalhe.js:150-159 | in the rendered table every confirm button finds its own row's input |
| AuditoriaDetalhe.Pagina.Carregar | frontend/auditoria-detalhe.js:11-95 | a missing id shows the missing-id message; a failure shows the error text; otherwise the header, the rows with the corrected ids, the recount alert (open audit with differences) and the buttons for the audit's state |
| AuditoriaDetalhe.Pagina.Preencher | frontend/auditoria-detalhe.js:49 | typing changes that input's value and nothing else |
| AuditoriaDetalhe.Pagina.ConfirmarContagem | frontend/auditoria-detalhe.js:150-171 | the system quantity is written into the input `getElementById` finds; with unique ids that is the button's own row; nothing else changes |
| AuditoriaDetalhe.CoagirSemDigitos | frontend/auditoria-detalhe.js:103 | an input holding no digit is saved as 0 |
| AuditoriaDetalhe.Coagir | frontend/auditoria-detalhe.js:103 | `parseInt(value) \|\| 0`: the parsed number, 0 for NaN |
| AuditoriaDetalhe.Contagens | frontend/auditoria-detalhe.js:99-104 | one entry per input in table order; the count is the coerced value; a category exactly for the editable inputs, their own |
| AuditoriaDetalhe.SalvarSemEditar | frontend/auditoria-detalhe.js:99-104 | an untouched table sends each category's counted value, or 0 when not counted |
| AuditoriaDetalhe.ConfirmarZeraDiferenca | frontend/auditoria-detalhe.js:150-159 | confirming then saving sends the system quantity, and the server then records a zero difference |
| AuditoriaDetalhe.Pagina.Salvar | frontend/auditoria-detalhe.js:99-118 | the body is the table's counts; success reloads the page; failure changes nothing |
| AuditoriaDetalhe.Pagina.ClicarFinalizar | frontend/auditoria-detalhe.js:131-134 | the dialog opens exactly after a successful save |
| AuditoriaDetalhe.Pagina.DigitarPalavra | frontend/auditoria-detalhe.js:138 | typing sets the keyword input and nothing else |
| AuditoriaDetalhe.Pagina.ConfirmarFinalizacao | frontend/auditoria-detalhe.js:137-147 | the request goes out exactly when the upper-cased keyword is "FINALIZAR"; the error shows otherwise; success closes the dialog and reloads; failure clears the keyword |
| AuditoriaDetalhe.PalavraSemCaixa | frontend/auditoria-detalhe.js:140 | the keyword is accepted in any mix of letter case |
| AuditoriaDetalhe.PalavraAceitaCurta | frontend/auditoria-detalhe.js:140 | nothing longer than nine characters is accepted |
| Relatorio.Coagir | frontend/relatorio.js:87 | `Number(x) \|\| 0`: NaN becomes 0, a number stays itself |
| Relatorio.CoagirTextoDeNumero | frontend/relatorio.js:87 | a number sent as text counts as that number |
| Relatorio.Categorias | frontend/relatorio.js:86-92 | the labels are exactly the rows' categories |
| Relatorio.CategoriasDistintas | frontend/relatorio.js:92 | no label appears twice |
| Relatorio.AgruparPorCategoria | frontend/relatorio.js:86-93 | the `reduce` gives the labels and, for each, the sum of its rows' coerced differences |
| Relatorio.GraficoConservaTotal | frontend/relatorio.js:86-93 | the chart's values add up to the sum of all rows' coerced differences |
| Relatorio.RenderGrafico | frontend/relatorio.js:95-164 | hidden exactly with no label or all zeros; horizontal exactly above 10 labels; a bar is red exactly when negative and labelled exactly when not zero |
| Relatorio.GraficoDosDados | frontend/relatorio.js:86-110 | the chart shows exactly when some category's sum is not zero, then with one bar per category |
| Relatorio.ComSinal | frontend/relatorio.js:151-192 | a '+' exactly for positive values, a '-' exactly for negative ones |
| Relatorio.ComSinalLidoDeVolta | frontend/relatorio.js:161 | a signed label reads back as its value |
| Relatorio.SinaisCoerentes | frontend/relatorio.js:37-192 | table colour, bar colour, impact card and sign agree on every value |
| Relatorio.RenderLinha | frontend/relatorio.js:177-193 | the colour class and the shown difference follow the coerced difference |
| Relatorio.RenderTabela | frontend/relatorio.js:171-176 | the "no differences" row appears exactly for an empty list |
| Relatorio.RenderSumario | frontend/relatorio.js:30-38 | each figure coerced, 0 for what is not a number; the impact card is "card-falta" exactly for a loss and "card-sobra" exactly for a gain; the down arrow exactly for a loss |
| Relatorio.CarregarRelatorio | frontend/relatorio.js:223-252 | the page shows exactly when the data have `kpis`, with the summary, the chart and the table of `diferencas \|\| []` |
| Relatorio.Codificar | frontend/relatorio.js:215-220 | an encoded name or value has no '&' or '=', and unreserved text is unchanged |
| Relatorio.ConsultaSeparavel | frontend/relatorio.js:215-221 | the query string splits at '&' into exactly the filled filters, start date, end date, entity, in that order |
| Relatorio.ConsultaDeDatas | frontend/relatorio.js:215-221 | date inputs and numeric entity ids go out unchanged |
| Relatorio.Consulta | frontend/relatorio.js:215-221 | the query string is empty exactly when no filter is filled |
| Relatorio.FiltroDeEntidades | frontend/relatorio.js:198-213 | the filter shows exactly for more than one entity, with "Todas as Entidades" first |
| Relatorio.FiltroEnviaId | frontend/relatorio.js:203 | picking an entity sends its id |

## Left out

- I/O is not modelled: the DOM, `fetch`/`apiFetch`, toasts, `localStorage` beyond the token
  field, `setTimeout`/`setInterval`, `focus()`, `console` and `window.appState`. Each handler
  takes its `fetch` outcome as a parameter instead.
- The Excel export (`crud.py:135-178`) and the pages' export buttons are left out: they are
  spreadsheet and blob generation.
- Chart.js drawing is left out; only the data the chart gets, its colours, labels and
  orientation are modelled.
- Timezones and clocks are not modelled: "now" is a parameter. `ZoneInfo('America/Sao_Paulo')`
  and the browser's local time are not modelled.
- SQL `ilike` is modelled as ASCII case-insensitive equality; the `%` and `_` wildcards are
  not modelled.
- SheetImport.ImportarPlanilhaGeral: the route is modelled with every added stock row visible to
  the next row's lookup, the corrected behaviour; the as-written lookup under `autoflush=False`
  is `SheetImport.ImportarLinhasComoEscrito`, which the route does not use.
- SheetImport.UltimaLinhaVence: holds for the corrected import only; as written, a name repeated
  for a new product leaves two stock rows (`SheetImport.LinhaRepetidaDuplicaEstoque`).
- Floating-point cells, amounts and `toFixed`/`formatarBRL` are left out: quantities are
  integers.
- Crud.EntidadeAlvo: an admin's payload entity is an integer, so a missing `entidade_id` and 0
  are the same case.
- The FastAPI routes in `main.py`, which call `crud` with mismatched argument lists, are not
  modelled. The model follows `crud.py`'s signatures.
- `listar_entidades` and `get_user_by_username` (`crud.py:21-30`) are plain lookups the modelled
  rules do not depend on.
- JavaScript `Number`/`parseInt` are modelled for decimal integer text only; hexadecimal,
  exponent and fractional text are not.
- JavaScript object key order is modelled as insertion order; integer-like keys, which
  `Object.keys` lists first, and `__proto__` are not modelled.
- `toUpperCase` is modelled for ASCII and Latin-1 letters only.
- Python `int()` on text is modelled without underscores and non-ASCII digits.
- NFD decomposition covers the precomposed Latin-1 letters.
- Normalize.IsCombiningMark: only U+0300-U+036F count as marks, while `crud.py:17` drops every
  character of category Mn; marks outside that block are kept by the model.
- Text.Upper: Python's `str.upper()` is modelled for ASCII and Latin-1 letters only;
  other scripts and the remaining special cases of Unicode case mapping are left as they are
  ("ß" is the one Latin-1 letter that grows, and becomes "SS").
- Crud.GruposDistintos: the order in which SQL `DISTINCT` returns the groups is modelled as the
  table's order, so which spelling stands for a normalised key (`crud.py:37-39`) is the first in
  the table; the database may pick another.
- Report.Categorias: the `GROUP BY` order is modelled as first appearance, which fixes the order
  among categories with equal absolute difference after the stable sort (`crud.py:225`).
- Usuarios.Carregar: a failing `/users/me` request (`frontend/usuarios.js:66-68`, inside the
  same `try`) is not a separate case; the visitor's role is given as an option.
- AuditoriaDetalhe.Pagina.Carregar: uses the corrected ids "qtd-contada-<row>"; as written, ids
  built from category names collide for names such as "A B" and "A-B"
  (`AuditoriaDetalhe.RenderLinhasComoEscrito`).
- AuditoriaDetalhe.MontarLinhas: builds the corrected table; the as-written ids from category
  names are `AuditoriaDetalhe.RenderLinhasComoEscrito`.
- Varejonline.DesfechoDe: an HTTP error carries the response text, the corrected behaviour; as
  written every 4xx/5xx response becomes "Sem resposta do servidor"
  (`Varejonline.TextoDoErroComoEscrito`).
- Varejonline.ObterProdutos: returns the corrected HTTP error text; as written every 4xx/5xx
  response gives "Sem resposta do servidor".
- Crud.UltimoEscopo: the scope query (`crud.py:110`) has no `ORDER BY` and the categories of a
  new audit are not deduplicated (`crud.py:81`), so when a category appears twice the row the
  dictionary keeps may be either; the model reads the rows in id order and keeps the last.
- Crud.MontarEscopoMap: same as `Crud.UltimoEscopo`; the row kept for a repeated name is the
  last in id order, where the database may return another order.
- Crud.GetAuditoriaDetalhes: the `escopo` relationship (`models.py:49`) has no `order_by`, so
  the order of the audit's scope rows, and with it the detail page's row order, is the
  database's; the model gives them in id order.
- A stock row's `quantidade_sistema` is nullable (`models.py:33`) and `SUM` skips NULLs; the
  model's quantity is an integer because no modelled write stores NULL.
- HTML escaping of category and user names inside the generated markup is not modelled.
- AuditoriaDetalhe.Pagina.Carregar: a reload after an error has replaced the page's `main`
  element is modelled as if the table elements were still there.
- Nav.Navegacao.Carregar: the missing-placeholder case is a parameter; the DOM lookup is not
  modelled.
- Varejonline.ObterProdutos: a server that never returns an empty page or an error makes the
  source loop for ever; the model requires a page at which the paging stops.
- The relatório page's `init` error handling and the modal-opening handlers of the user and
  audit pages are left out: they only show and hide DOM elements.
- The audit list's deletion is modelled up to its guards (`frontend/auditorias.js:179-193`);
  the request that follows them is I/O.

## Findings

| source | as written | input that shows it | evidently intended | confidence | as-written member | corrected member |
|---|---|---|---|---|---|---|
| frontend/script.js:26 | only the literal "Nunca" is treated as never updated, but `crud.py:183` returns "Nunca atualizado", which has no " às " to split at, so the time parse throws | the setting is absent, so the server answers "Nunca atualizado" | an outdated-stock panel saying the stock was never updated | not executed | StatusEstoque.NuncaAtualizadoComoEscrito | StatusEstoque.VerificarStatusEstoque |
| frontend/auditoria-detalhe.js:39 | the input id is the category name with white-space runs replaced by '-', which is not unique | categories "A B" and "A-B" in one audit | each confirm button fills its own row's input | not executed | AuditoriaDetalhe.IdsComoEscritoColidem | AuditoriaDetalhe.BotaoPreencheSuaLinha |
| frontend/usuarios.js:76 | `usuarios.filter` runs before the `!usuarios` check on line 78, so a `null` answer throws | `/api/users` answering with an empty body (`apiFetch` gives `null`) | the empty state | not executed | Usuarios.ListaNulaComoEscrito | Usuarios.Carregar |
| services/varejonline_service.py:55 | `if http_err.response` tests the response's truth value, which is false for every 4xx/5xx response | a 404 answer with body "Not Found" | the error message carries the server's text | not executed | Varejonline.TextoDoErroContraExemplo | Varejonline.TextoDoErro |
| main.py:128 | with `autoflush=False` (`database.py:25`) the stock row added at line 132 stays pending and the query does not see it; only creating a product flushes, so a name repeated for a new product inserts a second stock row and the category total adds both | rows ("X", 1) and ("X", 2) for a product not yet in the table | one stock row per product and entity, holding the last quantity | not executed | SheetImport.LinhaRepetidaDuplicaEstoque | SheetImport.UltimaLinhaVence |
