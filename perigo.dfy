/**
 * The danger classifier of api/comentario.js (`obterClassificacaoPerigo`):
 * the accumulated score is mapped to one of four labels, with the lower
 * bound of every tier inclusive.
 */
module Perigo {

  const LimiteMedio := 30
  const LimiteAlto := 60
  const LimiteCritico := 90

  /** The four labels the classifier can produce, exactly as the program stores them. */
  predicate EhClassificacao(rotulo: string) {
    rotulo == "BAIXO" || rotulo == "MÉDIO" || rotulo == "ALTO" || rotulo == "CRÍTICO"
  }

  /** Maps a score to its danger label; each label holds exactly on its half-open interval. */
  function ObterClassificacaoPerigo(pontuacao: int): (r: string)
    ensures EhClassificacao(r)
    ensures r == "BAIXO" <==> pontuacao < LimiteMedio
    ensures r == "MÉDIO" <==> LimiteMedio <= pontuacao < LimiteAlto
    ensures r == "ALTO" <==> LimiteAlto <= pontuacao < LimiteCritico
    ensures r == "CRÍTICO" <==> LimiteCritico <= pontuacao
  {
    if pontuacao < LimiteMedio then "BAIXO"
    else if pontuacao < LimiteAlto then "MÉDIO"
    else if pontuacao < LimiteCritico then "ALTO"
    else "CRÍTICO"
  }

  /** The severity order of the labels, from 0 (BAIXO) to 3 (CRÍTICO). */
  function Grau(rotulo: string): nat
  {
    if rotulo == "BAIXO" then 0
    else if rotulo == "MÉDIO" then 1
    else if rotulo == "ALTO" then 2
    else 3
  }

  /** A higher score never yields a less severe label. */
  lemma ClassificacaoMonotona(p: int, q: int)
    requires p <= q
    ensures Grau(ObterClassificacaoPerigo(p)) <= Grau(ObterClassificacaoPerigo(q))
  {
  }

  /** The severity grade counts how many thresholds the score has reached. */
  lemma GrauContaLimites(p: int)
    ensures Grau(ObterClassificacaoPerigo(p)) ==
      (if p >= LimiteMedio then 1 else 0) + (if p >= LimiteAlto then 1 else 0) + (if p >= LimiteCritico then 1 else 0)
  {
  }
}
