/**
 * The text sanitiser of api/comentario.js (`sanitizarTexto`): four global
 * single-character replacements, applied one after the other, followed by
 * truncation to the first 1000 characters. `&` is deliberately not escaped.
 */
module Sanitizacao {
  import opened Opcoes

  const TamanhoMaximo := 1000

  /** The four characters the sanitiser replaces by entities. */
  predicate Especial(c: char) {
    c == '<' || c == '>' || c == '"' || c == '\''
  }

  predicate SemEspeciais(s: string) {
    forall i :: 0 <= i < |s| ==> !Especial(s[i])
  }

  /** `s.replace(/alvo/g, entidade)`: every occurrence of `alvo`, left to right, becomes `entidade`. */
  function SubstituirTodos(s: string, alvo: char, entidade: string): string
  {
    if s == [] then []
    else Trocar(s[0], alvo, entidade) + SubstituirTodos(s[1..], alvo, entidade)
  }

  /** What one character becomes in a single replacement pass. */
  function Trocar(c: char, alvo: char, entidade: string): string
  {
    if c == alvo then entidade else [c]
  }

  /** The four replacement passes, in the program's order. */
  function Escapar(s: string): string
  {
    var semMenor := SubstituirTodos(s, '<', "&lt;");
    var semMaior := SubstituirTodos(semMenor, '>', "&gt;");
    var semAspas := SubstituirTodos(semMaior, '"', "&quot;");
    SubstituirTodos(semAspas, '\'', "&#039;")
  }

  lemma TruncarSemEspeciais(s: string)
    requires SemEspeciais(s)
    ensures SemEspeciais(Truncar(s))
  {
    var r := Truncar(s);
    forall i | 0 <= i < |r| ensures !Especial(r[i]) { assert r[i] == s[i]; }
  }

  /** `substring(0, 1000)`: at most the first 1000 characters. */
  function Truncar(s: string): (r: string)
    ensures |r| <= TamanhoMaximo
    ensures r <= s
    ensures |r| == if |s| <= TamanhoMaximo then |s| else TamanhoMaximo
  {
    if |s| <= TamanhoMaximo then s else s[..TamanhoMaximo]
  }

  /**
   * `sanitizarTexto(texto)`: an absent or empty text gives `''`; otherwise the
   * escaped text cut to its first 1000 characters. The result never holds a
   * special character, and it is the cut of the one-pass reference escape.
   */
  function Sanitizar(texto: Option<string>): (r: string)
    ensures |r| <= TamanhoMaximo
    ensures SemEspeciais(r)
    ensures r == [] <==> texto == None || texto == Some([])
    ensures texto.Some? ==> r <= Escapar(texto.value)
    ensures texto.Some? ==> r == Truncar(EscaparUmaPassagem(texto.value))
  {
    match texto
    case None => []
    case Some(s) =>
      if s == [] then []
      else
        EscaparEquivale(s);
        UmaPassagemPropriedades(s);
        TruncarSemEspeciais(Escapar(s));
        Truncar(Escapar(s))
  }

  // ---------------------------------------------------------------------
  // An independent one-pass reference for the four passes.

  /** What each character becomes in the escaped text. */
  function Entidade(c: char): string
  {
    if c == '<' then "&lt;"
    else if c == '>' then "&gt;"
    else if c == '"' then "&quot;"
    else if c == '\'' then "&#039;"
    else [c]
  }

  /** Escapes each character by itself, in a single left-to-right pass. */
  function EscaparUmaPassagem(s: string): string
  {
    if s == [] then [] else Entidade(s[0]) + EscaparUmaPassagem(s[1..])
  }

  /**
   * The one-pass escape leaves none of the four characters, never shortens
   * the text, and is the identity on text without them.
   */
  lemma {:induction false} UmaPassagemPropriedades(s: string)
    ensures SemEspeciais(EscaparUmaPassagem(s))
    ensures |EscaparUmaPassagem(s)| >= |s|
    ensures SemEspeciais(s) ==> EscaparUmaPassagem(s) == s
  {
    if s != [] {
      UmaPassagemPropriedades(s[1..]);
      var cabeca, resto := Entidade(s[0]), EscaparUmaPassagem(s[1..]);
      assert SemEspeciais(cabeca);
      assert SemEspeciais(cabeca + resto) by {
        forall i | 0 <= i < |cabeca + resto|
          ensures !Especial((cabeca + resto)[i])
        {
          if i >= |cabeca| { assert (cabeca + resto)[i] == resto[i - |cabeca|]; }
        }
      }
      if SemEspeciais(s) {
        assert SemEspeciais(s[1..]) by {
          forall i | 0 <= i < |s[1..]| ensures !Especial(s[1..][i]) { assert s[1..][i] == s[i + 1]; }
        }
        assert cabeca == [s[0]];
      }
    }
  }

  lemma SubstituirCabeca(a: string, b: string, alvo: char, entidade: string)
    requires a != []
    ensures SubstituirTodos(a + b, alvo, entidade) == Trocar(a[0], alvo, entidade) + SubstituirTodos(a[1..] + b, alvo, entidade)
  {
    assert (a + b)[0] == a[0] && (a + b)[1..] == a[1..] + b;
  }

  lemma {:induction false} SubstituirConcat(a: string, b: string, alvo: char, entidade: string)
    ensures SubstituirTodos(a + b, alvo, entidade) == SubstituirTodos(a, alvo, entidade) + SubstituirTodos(b, alvo, entidade)
  {
    if a == [] {
      assert a + b == b;
    } else {
      var cabeca := Trocar(a[0], alvo, entidade);
      var x, y := SubstituirTodos(a[1..], alvo, entidade), SubstituirTodos(b, alvo, entidade);
      SubstituirCabeca(a, b, alvo, entidade);
      SubstituirConcat(a[1..], b, alvo, entidade);
      assert cabeca + (x + y) == (cabeca + x) + y;
    }
  }

  /** Escaping distributes over concatenation. */
  lemma EscaparConcat(a: string, b: string)
    ensures Escapar(a + b) == Escapar(a) + Escapar(b)
  {
    var a1, b1 := SubstituirTodos(a, '<', "&lt;"), SubstituirTodos(b, '<', "&lt;");
    SubstituirConcat(a, b, '<', "&lt;");
    var a2, b2 := SubstituirTodos(a1, '>', "&gt;"), SubstituirTodos(b1, '>', "&gt;");
    SubstituirConcat(a1, b1, '>', "&gt;");
    var a3, b3 := SubstituirTodos(a2, '"', "&quot;"), SubstituirTodos(b2, '"', "&quot;");
    SubstituirConcat(a2, b2, '"', "&quot;");
    SubstituirConcat(a3, b3, '\'', "&#039;");
  }

  /** A pass whose target does not occur leaves the text unchanged. */
  lemma {:induction false} SubstituirSemAlvo(s: string, alvo: char, entidade: string)
    requires alvo !in s
    ensures SubstituirTodos(s, alvo, entidade) == s
  {
    if s != [] {
      assert s[0] != alvo && alvo !in s[1..];
      SubstituirSemAlvo(s[1..], alvo, entidade);
    }
  }

  lemma SubstituirUnitario(c: char, alvo: char, entidade: string)
    ensures SubstituirTodos([c], alvo, entidade) == if c == alvo then entidade else [c]
  {
    assert [c][1..] == [];
  }

  lemma EscaparMenor()
    ensures Escapar("<") == "&lt;"
  {
    SubstituirUnitario('<', '<', "&lt;");
    SubstituirSemAlvo("&lt;", '>', "&gt;");
    SubstituirSemAlvo("&lt;", '"', "&quot;");
    SubstituirSemAlvo("&lt;", '\'', "&#039;");
  }

  lemma EscaparMaior()
    ensures Escapar(">") == "&gt;"
  {
    SubstituirSemAlvo(">", '<', "&lt;");
    SubstituirUnitario('>', '>', "&gt;");
    SubstituirSemAlvo("&gt;", '"', "&quot;");
    SubstituirSemAlvo("&gt;", '\'', "&#039;");
  }

  lemma EscaparAspas()
    ensures Escapar("\"") == "&quot;"
  {
    SubstituirSemAlvo("\"", '<', "&lt;");
    SubstituirSemAlvo("\"", '>', "&gt;");
    SubstituirUnitario('"', '"', "&quot;");
    SubstituirSemAlvo("&quot;", '\'', "&#039;");
  }

  lemma EscaparApostrofo()
    ensures Escapar("'") == "&#039;"
  {
    SubstituirSemAlvo("'", '<', "&lt;");
    SubstituirSemAlvo("'", '>', "&gt;");
    SubstituirSemAlvo("'", '"', "&quot;");
    SubstituirUnitario('\'', '\'', "&#039;");
  }

  /** The four passes applied to one character produce that character's entity. */
  lemma EscaparUnitario(c: char)
    ensures Escapar([c]) == Entidade(c)
  {
    if c == '<' {
      EscaparMenor();
    } else if c == '>' {
      EscaparMaior();
    } else if c == '"' {
      EscaparAspas();
    } else if c == '\'' {
      EscaparApostrofo();
    } else {
      SubstituirSemAlvo([c], '<', "&lt;");
      SubstituirSemAlvo([c], '>', "&gt;");
      SubstituirSemAlvo([c], '"', "&quot;");
      SubstituirSemAlvo([c], '\'', "&#039;");
    }
  }

  /** Because no entity contains a later pass's target, the four passes equal the one-pass escape. */
  lemma {:induction false} EscaparEquivale(s: string)
    ensures Escapar(s) == EscaparUmaPassagem(s)
  {
    if s != [] {
      assert s == [s[0]] + s[1..];
      EscaparConcat([s[0]], s[1..]);
      EscaparUnitario(s[0]);
      EscaparEquivale(s[1..]);
    }
  }

  /** Text with none of the four special characters and at most 1000 long is left unchanged. */
  lemma SanitizarIdentidade(s: string)
    requires SemEspeciais(s) && |s| <= TamanhoMaximo
    ensures Sanitizar(Some(s)) == s
  {
    EscaparEquivale(s);
    UmaPassagemPropriedades(s);
  }

  /** `&` is not escaped: an already-escaped entity passes through verbatim. */
  lemma EComercialNaoEscapado()
    ensures Sanitizar(Some("&amp;")) == "&amp;"
    ensures Entidade('&') == "&"
  {
    SanitizarIdentidade("&amp;");
  }

  /** Text with none of the four special characters escapes to itself. */
  lemma EscaparSemEspeciais(s: string)
    requires SemEspeciais(s)
    ensures Escapar(s) == s
  {
    EscaparEquivale(s);
    UmaPassagemPropriedades(s);
  }

  /**
   * Truncation happens after escaping: a `<` at position 999 becomes `&lt;`,
   * of which only the `&` survives the cut at 1000.
   */
  lemma TruncagemCortaEntidade(p: string)
    requires |p| == TamanhoMaximo - 1 && SemEspeciais(p)
    ensures Sanitizar(Some(p + "<")) == p + "&"
  {
    EscaparConcat(p, "<");
    EscaparSemEspeciais(p);
    EscaparMenor();
    assert (p + "&lt;")[..TamanhoMaximo] == p + "&";
  }

  /** A tag `<nome>` is stored as `&lt;nome&gt;` (for `<script>`, `&lt;script&gt;`). */
  lemma SanitizarEtiqueta(nome: string)
    requires SemEspeciais(nome) && |nome| <= TamanhoMaximo - 8
    ensures Sanitizar(Some("<" + nome + ">")) == "&lt;" + nome + "&gt;"
  {
    EscaparConcat("<" + nome, ">");
    EscaparConcat("<", nome);
    EscaparSemEspeciais(nome);
    EscaparMenor();
    EscaparMaior();
  }
}
