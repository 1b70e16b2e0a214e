# Miyukômetro scored comment store, in Dafny

This project models the comment endpoint of the Miyukômetro site
(`api/comentario.js`). The endpoint keeps one JSON document holding a running
danger score, the score's label, and a newest-first log of comments. A POST
with `{ texto, autor, anonimo, arquivo }` is validated, sanitised, prepended to
the log as a `deslike`, and the score grows by `pontosPorAvaliacao`. Then the
counters and the danger label are recomputed and the document is written back.

Modules, one per part of the file:

- `Perigo` (`perigo.dfy`): `obterClassificacaoPerigo`, the four danger labels
  `BAIXO`, `MÉDIO`, `ALTO`, `CRÍTICO` at the thresholds 30, 60 and 90.
- `Sanitizacao` (`sanitizacao.dfy`): `sanitizarTexto`, written as the program
  runs it: four global replacements in order, then a cut to 1000 characters.
  A one-pass, character-by-character escape is the independent reference, and
  the two are proved equal (`EscaparEquivale`).
- `Armazenamento` (`armazenamento.dfy`): the document as datatypes, the
  default document, the source choice of `lerDados`, the mutable parsed object
  `Dados`, and `salvarDados`.
- `ApiComentario` (`api_comentario.dfy`): the body checks, the new comment,
  and the POST handler `CriarComentario`. The handler allocates the parsed
  object and updates its fields step by step, as the source does.
- `Opcoes` (`opcoes.dfy`): `Option`, standing for a JavaScript value that may
  be `undefined`/`null`.

Inputs that the program reads from its environment are parameters:

- the stored and seed documents are `Option<Documento>`, with `None` meaning
  absent or unparseable;
- `naVercel` is the deployment flag;
- `Relogio` holds the clock readings: both `Date.now()` calls, the
  `toLocaleString('pt-BR')` text, and the `toISOString()` of the load and of
  the save;
- `copiaOk` is whether the seed copy's write succeeds, when loading makes
  one on Vercel;
- `escritaOk` is whether the final file write succeeds.

Where the system's design description differs from the code, the model
follows the code:

- The labels and the anonymous author are the Portuguese literals in the code
  (`BAIXO`…, `Anônimo`), not English names.
- Creation never clamps the score at 0. It adds `pontosPorAvaliacao` as is.
- The comment's `id` and `timestamp` come from two separate `Date.now()`
  calls, so they may differ.
- On Vercel, copying the seed document goes through `salvarDados`. That call
  stamps `dataUltimaAtualizacao` on the in-memory seed, whether or not the
  copy is written.
- The `limites` stored in the document are not used by the classifier. The
  default document has `critico: 90`, the same value as `alto`.

## Model

| member | source | states |
|---|---|---|
| Perigo.ObterClassificacaoPerigo | api/comentario.js:78-83 | the label is BAIXO iff score < 30, MÉDIO iff 30 ≤ score < 60, ALTO iff 60 ≤ score < 90, CRÍTICO iff score ≥ 90; it is always one of the four |
| Perigo.ClassificacaoMonotona | api/comentario.js:78-83 | a higher score never gives a less severe label |
| Perigo.GrauContaLimites | api/comentario.js:79-82 | the label's severity grade is the number of thresholds (30, 60, 90) the score has reached |
| Sanitizacao.SubstituirSemAlvo | api/comentario.js:88-91 | specifies one global `replace` (`SubstituirTodos`): text without its target character is left unchanged |
| Sanitizacao.SubstituirConcat | api/comentario.js:88-91 | specifies one global `replace` (`SubstituirTodos`): replacing in a concatenation equals concatenating the replaced parts, so every occurrence is replaced independently of its neighbours |
| Sanitizacao.EscaparConcat | api/comentario.js:87-91 | the four chained replacements (`Escapar`) distribute over concatenation |
| Sanitizacao.Truncar | api/comentario.js:92 | `substring(0, 1000)`: a prefix of the text whose length is exactly the smaller of the text's length and 1000 |
| Sanitizacao.Sanitizar | api/comentario.js:85-93 | empty result exactly for absent or empty input; never longer than 1000; never contains `<`, `>`, `"`, `'`; for present text, exactly the first 1000 characters of the one-pass per-character escape of it |
| Sanitizacao.UmaPassagemPropriedades | api/comentario.js:87-91 | the per-character reference escape leaves none of the four characters, never shortens the text, and is the identity on text without them |
| Sanitizacao.EscaparEquivale | api/comentario.js:87-91 | specifies `Escapar`: the four chained replacements equal the one-pass per-character escape, for every text |
| Sanitizacao.EscaparSemEspeciais | api/comentario.js:87-91 | the four passes leave text without the four characters unchanged |
| Sanitizacao.SanitizarIdentidade | api/comentario.js:85-93 | text with none of the four characters and at most 1000 long is returned unchanged |
| Sanitizacao.EComercialNaoEscapado | api/comentario.js:87-91 | `&` is not escaped, so `&amp;` passes through verbatim |
| Sanitizacao.TruncagemCortaEntidade | api/comentario.js:87-92 | the cut comes after escaping: 999 plain characters followed by `<` sanitise to those characters followed by a lone `&` |
| Sanitizacao.SanitizarEtiqueta | api/comentario.js:88-89 | a tag `<nome>` becomes `&lt;nome&gt;`, so `<script>` is stored as `&lt;script&gt;` |
| Armazenamento.Padrao | api/comentario.js:38-58 | the default document is consistent, has no comments, no likes, score 0, 10 points per evaluation, and carries the clock reading as its update stamp |
| Armazenamento.LerDados | api/comentario.js:12-58 | the stored document wins; else the seed, with the same content, and stamped with the clock on Vercel only; else exactly the default document stamped with the clock |
| Armazenamento.ComComentarioNoTopo | api/comentario.js:144-146 | the comment list gains the new comment in front; both counters become the new length; likes and settings untouched |
| Armazenamento.ComPontuacaoAtualizada | api/comentario.js:148-150 | the score grows by the points per evaluation; the danger value equals it and the label is its classification; every other field untouched |
| Armazenamento.ComNovoComentario | api/comentario.js:144-150 | the new comment is element 0 and the old comments follow unchanged; both counters equal the list length; likes untouched; score grows by the points per evaluation; danger value and label follow the score; other settings unchanged |
| Armazenamento.ComNovoComentarioNaoReduz | api/comentario.js:148-150 | with non-negative points a create never lowers the score or its label |
| Armazenamento.Dados.constructor | api/comentario.js:131 | the parsed object holds exactly the loaded document |
| Armazenamento.Dados.InserirNoTopo | api/comentario.js:144-146 | the object's document becomes the old one with the comment in front and the counters recounted |
| Armazenamento.Dados.Pontuar | api/comentario.js:148-150 | the object's document becomes the old one with the points added and the danger level reassigned |
| Armazenamento.SalvarDados | api/comentario.js:61-76 | the object is stamped with the clock reading whatever the write's outcome; the result is the write's outcome |
| ApiComentario.Validar | api/comentario.js:123-129 | `Comentário vazio` (400) iff there is neither text nor attachment; `Arquivo muito grande` (400) iff there is one of them and the payload exceeds 10 MiB; no error otherwise |
| ApiComentario.ResolverAutor | api/comentario.js:136 | `Anônimo` when `anonimo` is truthy or the sanitised author is empty, otherwise the sanitised author; never empty, at most 1000 long, no special characters |
| ApiComentario.NovoComentario | api/comentario.js:133-142 | text empty exactly when none was sent, bounded and escaped; author as resolved; flag true only for a literal `true`; always a `deslike`; `dataHora` is the locale clock text; id, timestamp and attachment carried over |
| Armazenamento.CopiaDaSemente | api/comentario.js:22-33 | a seed copy is written exactly when nothing is stored, a seed exists and the deployment is Vercel; the copy is the seed stamped with the clock, the same document the request then updates |
| ApiComentario.CriarComentario | api/comentario.js:120-162 | a rejected body gets its 400 answer and nothing is written; otherwise the seed copy of `lerDados` is stored when it is made and its write succeeds; the loaded document gains the comment and the points, and is persisted and answered 200 with the comment and new score iff the final write succeeds, else 500; a persisted document is consistent |
| ApiComentario.CenarioArquivoGrande | api/comentario.js:127-129 | an 11 MiB payload is refused |
| ApiComentario.AnonimoNaoBooleano | api/comentario.js:136-137 | a truthy non-boolean `anonimo` gives the anonymous author but a stored flag of false |
| ApiComentario.DuasCriacoes | api/comentario.js:144-150 | two creates in a row, the second loading what the first wrote, leave both comments on top newest first, counters +2, score +2 × points, consistent |
| ApiComentario.CenarioLojaVazia | api/comentario.js:144-150 | from an empty store the first comment gives score 10, label BAIXO, a one-comment log |
| ApiComentario.CenarioCruzaLimite | api/comentario.js:148-150 | score 25 plus 10 points gives 35, label MÉDIO |

## Left out

- File access is not modelled. This covers `existsSync`, `readFileSync`, `writeFileSync`, `mkdirSync` and the `/tmp` versus working-directory path choice. The sources are optional documents and a write is a flag.
- Outside Vercel, the primary and seed paths name the same file. The model still takes them as two independent inputs.
- The seed copy's write outcome does not change what the request loads, because the source ignores it. The model only reports whether the copy was stored.
- JSON parsing and formatting are not modelled, and neither is the `Buffer` body shim with its `Body inválido` answer.
- HTTP plumbing is not modelled: CORS headers, the OPTIONS and 405 dispatch, and `res.status().json()`. Answers are the `Resposta` datatype.
- The catch-all 500 answer for exceptions is not modelled. Such exceptions come from an absent or `null` request body (the destructuring at line 120), a stored document missing a field, or a `texto`/`autor` that is not a string. Bodies are assumed to be objects, documents to have the full shape of the default one, and texts to be strings or absent.
- Because the sources are parameters, the model cannot observe that a rejected request never loads the document. It states only that nothing is written.
- Clock and locale formatting are parameters. So is console logging, and attachment fields other than the `dados` payload are not modelled.
- JavaScript numbers are doubles. Scores and timestamps are unbounded integers here, so precision loss beyond 2^53 is not modelled.
- JavaScript strings count UTF-16 code units, while Dafny strings count Unicode scalar values. For text outside the Basic Multilingual Plane, the 1000 limit and the 10 MiB limit are therefore counted differently.
- Comment deletion, likes, and concurrent requests (lost updates) are not modelled. None of them is part of `api/comentario.js`.
- `build.js` only copies deployment files and is not modelled.
