/**
 * The records exchanged by the content subsystem: the remote quiz schema, the
 * legacy display schema, the remote configuration, categories and the sync status.
 *
 * Instants are integer milliseconds since the Unix epoch; the ISO-8601 strings the
 * application stores are identified with the instant they denote.
 */
module QuizTypes {
  import opened Wrappers

  /** One hour in milliseconds. */
  const HourMs: int := 3_600_000

  /** A JavaScript Date holds at most this many milliseconds either side of the epoch. */
  const MaxTimeMs: int := 8_640_000_000_000_000

  /** A JavaScript primitive as it arrives in remote JSON (numbers are taken to be integers). */
  datatype Answer = Num(n: int) | Bool(b: bool) | Str(s: string)

  /** A quiz identifier: `number | string`. */
  datatype QuizId = NumId(n: int) | StrId(s: string)

  /**
   * The `tipo` tag of a remote quiz. Remote content is uncontrolled, so any tag other
   * than the five known ones is carried by `Unrecognized`.
   */
  datatype QuizType =
    | MultiplaEscolha
    | VerdadeiroFalso
    | ImagemParaTexto
    | CompletarFrase
    | QuizRelacionar
    | Unrecognized(tag: string)

  /** The display kind of a legacy question. */
  datatype QuestionType = Text | Image | Audio | Mixed

  datatype QuestionOption = QuestionOption(texto: string, imagem: Option<string>, audio: Option<string>)

  /** A quiz in the remote schema; `opcoes` is `None` when absent or not an array. */
  datatype Quiz = Quiz(
    id: QuizId,
    categoria: string,
    tipo: QuizType,
    pergunta: string,
    opcoes: Option<seq<string>>,
    resposta_correta: Answer,
    imagem: Option<string>,
    explicacao: Option<string>)

  /**
   * A question in the legacy display schema. `resposta_correta` is declared a number;
   * the adapter fills it with an unchecked cast, so it keeps the JavaScript value.
   */
  datatype Question = Question(
    id: string,
    categoria: string,
    tipo: QuestionType,
    pergunta: string,
    opcoes: seq<QuestionOption>,
    resposta_correta: Answer,
    explicacao: string)

  datatype ThemeMode = Claro | Escuro

  datatype Theme = Theme(cor_primaria: string, cor_secundaria: string, modo: ThemeMode)

  /**
   * The remote configuration. `ultima_atualizacao` is the instant its date string denotes;
   * `intervalo_atualizacao_horas` is `None` when the field is missing.
   */
  datatype AppConfig = AppConfig(
    versao: string,
    ultima_atualizacao: int,
    intervalo_atualizacao_horas: Option<int>,
    tema: Theme)

  datatype Categoria = Categoria(id: int, nome: string, descricao: string, icone: Option<string>)

  datatype SyncStatus = SyncStatus(lastSync: int, version: string, nextSync: int, isOffline: bool)

  /** The number a string of decimal digits denotes, most significant digit first. */
  function DigitsValue(s: string): int {
    if s == [] then 0 else DigitsValue(s[..|s| - 1]) * 10 + (s[|s| - 1] as int - '0' as int)
  }

  /** A canonical decimal numeral: non-empty, digits only, and no leading zero unless it is "0". */
  predicate DecimalNumeral(s: string) {
    && |s| >= 1
    && (forall i :: 0 <= i < |s| ==> '0' <= s[i] <= '9')
    && (s[0] == '0' ==> s == "0")
  }

  /** Decimal digits of a natural number, most significant first. */
  function NatToString(n: nat): (s: string)
    ensures DecimalNumeral(s)
    ensures DigitsValue(s) == n
    ensures n >= 10 ==> s[0] != '0'
    decreases n
  {
    var d := [(('0' as int) + n % 10) as char];
    if n < 10 then d
    else
      var high := NatToString(n / 10);
      assert (high + d)[..|high + d| - 1] == high;
      assert (high + d)[0] == high[0];
      high + d
  }

  /** JavaScript's `String(v)` for the primitives a quiz carries. */
  function AnswerToString(a: Answer): (s: string)
    ensures a.Num? && a.n >= 0 ==> DecimalNumeral(s) && DigitsValue(s) == a.n
    ensures a.Num? && a.n < 0 ==> |s| >= 2 && s[0] == '-' && DecimalNumeral(s[1..]) && DigitsValue(s[1..]) == -a.n
    ensures a.Bool? ==> s == if a.b then "true" else "false"
    ensures a.Str? ==> s == a.s
  {
    match a
    case Num(n) =>
      if n < 0 then
        var digits := NatToString(-n);
        assert ("-" + digits)[1..] == digits;
        "-" + digits
      else NatToString(n)
    case Bool(b) => if b then "true" else "false"
    case Str(s) => s
  }

  /** JavaScript's `String(id)`: a numeric id prints as its decimal digits, a string id as itself. */
  function IdToString(id: QuizId): (s: string)
    ensures id.NumId? && id.n >= 0 ==> DecimalNumeral(s) && DigitsValue(s) == id.n
    ensures id.NumId? && id.n < 0 ==> |s| >= 2 && s[0] == '-' && DecimalNumeral(s[1..]) && DigitsValue(s[1..]) == -id.n
    ensures id.StrId? ==> s == id.s
  {
    match id
    case NumId(n) => AnswerToString(Num(n))
    case StrId(s) => s
  }
}
