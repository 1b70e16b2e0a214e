/**
 * The POST handler of api/comentario.js: validate the request body, load the
 * document, build the new comment, prepend it, recount, add the points,
 * reclassify, save, and answer. HTTP plumbing is replaced by a `Resposta`
 * value; the clock, the two storage sources and the outcome of the write are
 * parameters.
 */
module ApiComentario {
  import opened Opcoes
  import Perigo
  import Sanitizacao
  import opened Armazenamento

  /** Largest attachment payload accepted: 10 MiB. */
  const LimiteArquivo := 10 * 1024 * 1024

  const AutorAnonimo := "Anônimo"

  /**
   * The `anonimo` field of the body as JavaScript sees it: absent, a boolean,
   * or some other value that is truthy or falsy.
   */
  datatype Anonimo = Ausente | Booleano(b: bool) | Outro(verdadeiro: bool) {
    /** `anonimo ? … : …` */
    predicate Verdadeiro() {
      this == Booleano(true) || this == Outro(true)
    }
  }

  /** The destructured request body `{ texto, autor, anonimo, arquivo }`. */
  datatype Corpo = Corpo(texto: Option<string>, autor: Option<string>, anonimo: Anonimo, arquivo: Option<Arquivo>)

  /**
   * The clock readings of one request: the two `Date.now()` calls (id, then
   * timestamp), `toLocaleString('pt-BR')`, the `toISOString()` of `lerDados`
   * (default document or seed copy) and the one of the final save.
   */
  datatype Relogio = Relogio(idMs: int, timestampMs: int, dataHoraLocal: string, isoLeitura: string, isoGravacao: string)

  /** What the handler answers: the created comment and score, or a status and message. */
  datatype Resposta = Sucesso(comentario: Comentario, pontuacao: int) | Falha(status: int, erro: string)

  const ErroVazio := Falha(400, "Comentário vazio")
  const ErroArquivoGrande := Falha(400, "Arquivo muito grande (máximo 10MB)")
  const ErroSalvar := Falha(500, "Erro ao salvar comentário")

  /** `texto` is truthy: present and non-empty. */
  predicate TemTexto(corpo: Corpo) {
    corpo.texto.Some? && corpo.texto.value != []
  }

  /** `arquivo && arquivo.dados && arquivo.dados.length > 10 * 1024 * 1024` */
  predicate ArquivoGrandeDemais(corpo: Corpo) {
    corpo.arquivo.Some? && corpo.arquivo.value.dados.Some? && |corpo.arquivo.value.dados.value| > LimiteArquivo
  }

  /**
   * The two checks made before the document is touched. An empty body is
   * reported first; an oversized attachment second; otherwise nothing.
   */
  function Validar(corpo: Corpo): (r: Option<Resposta>)
    ensures r == Some(ErroVazio) <==> !TemTexto(corpo) && corpo.arquivo.None?
    ensures r == Some(ErroArquivoGrande) <==> (TemTexto(corpo) || corpo.arquivo.Some?) && ArquivoGrandeDemais(corpo)
    ensures r.None? <==> (TemTexto(corpo) || corpo.arquivo.Some?) && !ArquivoGrandeDemais(corpo)
  {
    if !TemTexto(corpo) && corpo.arquivo.None? then Some(ErroVazio)
    else if ArquivoGrandeDemais(corpo) then Some(ErroArquivoGrande)
    else None
  }

  /**
   * The stored author: the anonymous literal when `anonimo` is truthy or the
   * sanitised author is empty, else the sanitised author. It is never empty,
   * never longer than 1000 and never holds a special character.
   */
  function ResolverAutor(anonimo: Anonimo, autor: Option<string>): (r: string)
    ensures r != []
    ensures |r| <= Sanitizacao.TamanhoMaximo && Sanitizacao.SemEspeciais(r)
    ensures anonimo.Verdadeiro() ==> r == AutorAnonimo
    ensures !anonimo.Verdadeiro() && r != AutorAnonimo ==> r == Sanitizacao.Sanitizar(autor)
    ensures !anonimo.Verdadeiro() && Sanitizacao.Sanitizar(autor) != [] ==> r == Sanitizacao.Sanitizar(autor)
  {
    if anonimo.Verdadeiro() then AutorAnonimo
    else
      var s := Sanitizacao.Sanitizar(autor);
      if s == [] then AutorAnonimo else s
  }

  /**
   * The comment object built by the handler: its text is the sanitised text
   * (empty exactly when none was sent), its author resolved as above, its
   * flag set only by a literal `true`, and it is always a dislike.
   */
  function NovoComentario(corpo: Corpo, relogio: Relogio): (c: Comentario)
    ensures c.texto == [] <==> !TemTexto(corpo)
    ensures |c.texto| <= Sanitizacao.TamanhoMaximo && Sanitizacao.SemEspeciais(c.texto)
    ensures c.texto == Sanitizacao.Sanitizar(corpo.texto)
    ensures c.autor == ResolverAutor(corpo.anonimo, corpo.autor)
    ensures c.anonimo <==> corpo.anonimo == Booleano(true)
    ensures c.tipoAvaliacao == "deslike"
    ensures c.arquivo == corpo.arquivo
    ensures c.id == relogio.idMs && c.timestamp == relogio.timestampMs
    ensures c.dataHora == relogio.dataHoraLocal
  {
    Comentario(
      relogio.idMs,
      Sanitizacao.Sanitizar(corpo.texto),
      ResolverAutor(corpo.anonimo, corpo.autor),
      corpo.anonimo == Booleano(true),
      "deslike",
      relogio.dataHoraLocal,
      relogio.timestampMs,
      corpo.arquivo)
  }

  /**
   * The create-comment request. `armazenado` and `semente` are the documents
   * the two storage locations hold (None when absent or unparseable), and
   * `naVercel` selects the deployment. Two writes can happen: the seed copy
   * that loading makes on Vercel, whose success is `copiaOk`, and the final
   * save, whose success is `escritaOk`. `copiaGravada` and `persistido` are
   * the documents those two writes store, None when a write is not made or
   * fails.
   *
   * A rejected body yields its 400 answer and writes nothing. Otherwise the
   * loaded document gains the new comment first and the points of one
   * evaluation, with every cached field recomputed; it is persisted only
   * when the final write succeeds, and a failed final write answers 500.
   */
  method CriarComentario(corpo: Corpo, armazenado: Option<Documento>, semente: Option<Documento>,
                         naVercel: bool, relogio: Relogio, copiaOk: bool, escritaOk: bool)
    returns (resposta: Resposta, copiaGravada: Option<Documento>, persistido: Option<Documento>)
    ensures Validar(corpo).Some? ==> resposta == Validar(corpo).value && copiaGravada.None? && persistido.None?
    ensures Validar(corpo).None? ==>
      copiaGravada == if copiaOk then CopiaDaSemente(armazenado, semente, naVercel, relogio.isoLeitura) else None
    ensures Validar(corpo).None? && !escritaOk ==> resposta == ErroSalvar && persistido.None?
    ensures Validar(corpo).None? && escritaOk ==>
      var antes := LerDados(armazenado, semente, naVercel, relogio.isoLeitura);
      var novo := NovoComentario(corpo, relogio);
      && persistido == Some(ComNovoComentario(antes, novo).(dataUltimaAtualizacao := relogio.isoGravacao))
      && resposta == Sucesso(novo, antes.configuracoes.pontuacaoAtual + antes.configuracoes.pontosPorAvaliacao)
    ensures resposta.Sucesso? <==> persistido.Some?
    ensures persistido.Some? ==>
      && Consistente(persistido.value)
      && persistido.value.avaliacoes.comentarios[0] == resposta.comentario
      && persistido.value.configuracoes.pontuacaoAtual == resposta.pontuacao
  {
    var erro := Validar(corpo);
    if erro.Some? {
      return erro.value, None, None;
    }

    var copia := CopiaDaSemente(armazenado, semente, naVercel, relogio.isoLeitura);
    copiaGravada := if copiaOk then copia else None;
    var dados := new Dados(LerDados(armazenado, semente, naVercel, relogio.isoLeitura));
    var novoComentario := NovoComentario(corpo, relogio);

    dados.InserirNoTopo(novoComentario);
    dados.Pontuar();

    var sucesso := SalvarDados(dados, relogio.isoGravacao, escritaOk);
    if !sucesso {
      return ErroSalvar, copiaGravada, None;
    }
    return Sucesso(novoComentario, dados.configuracoes.pontuacaoAtual), copiaGravada, Some(dados.Valor());
  }

  /** An attachment payload of 11 MiB is refused, whatever the text. */
  lemma CenarioArquivoGrande(corpo: Corpo, dados: string)
    requires |dados| == 11 * 1024 * 1024 && corpo.arquivo == Some(Arquivo(Some(dados)))
    ensures Validar(corpo) == Some(ErroArquivoGrande)
  {
  }

  /** A truthy value other than `true` makes the author anonymous but records the flag as false. */
  lemma AnonimoNaoBooleano(corpo: Corpo, relogio: Relogio)
    requires corpo.anonimo == Outro(true)
    ensures NovoComentario(corpo, relogio).autor == AutorAnonimo
    ensures !NovoComentario(corpo, relogio).anonimo
  {
  }

  /**
   * Two successful creates in a row, the second loading what the first
   * wrote: both comments are on top, newest first, the counters grew by two
   * and the score by twice the points per evaluation.
   */
  lemma DuasCriacoes(d: Documento, c1: Comentario, c2: Comentario, semente: Option<Documento>,
                     naVercel: bool, iso1: string, iso2: string)
    ensures
      var depois1 := ComNovoComentario(d, c1).(dataUltimaAtualizacao := iso1);
      var depois2 := ComNovoComentario(LerDados(Some(depois1), semente, naVercel, iso2), c2);
      && depois2.avaliacoes.comentarios == [c2, c1] + d.avaliacoes.comentarios
      && depois2.avaliacoes.totalComentarios == |d.avaliacoes.comentarios| + 2
      && depois2.configuracoes.pontuacaoAtual == d.configuracoes.pontuacaoAtual + 2 * d.configuracoes.pontosPorAvaliacao
      && Consistente(depois2)
  {
    var depois1 := ComNovoComentario(d, c1).(dataUltimaAtualizacao := iso1);
    var depois2 := ComNovoComentario(depois1, c2);
    assert depois2.avaliacoes.comentarios == [c2] + ([c1] + d.avaliacoes.comentarios);
  }

  /** From an empty store, the first comment under the default ten points leaves the score at 10, BAIXO. */
  lemma CenarioLojaVazia(c: Comentario, naVercel: bool, iso: string)
    ensures
      var d := ComNovoComentario(LerDados(None, None, naVercel, iso), c);
      && d.configuracoes.pontuacaoAtual == 10
      && d.configuracoes.nivelPerigo.classificacao == "BAIXO"
      && d.avaliacoes.comentarios == [c]
  {
  }

  /** A score of 25 plus ten points crosses the first threshold: 35, MÉDIO. */
  lemma CenarioCruzaLimite(d: Documento, c: Comentario)
    requires d.configuracoes.pontuacaoAtual == 25 && d.configuracoes.pontosPorAvaliacao == 10
    ensures ComNovoComentario(d, c).configuracoes.pontuacaoAtual == 35
    ensures ComNovoComentario(d, c).configuracoes.nivelPerigo.classificacao == "MÉDIO"
  {
  }
}
