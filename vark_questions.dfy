/**
 * The fixed VARK question bank (src/data/varkQuestions.ts): ten questions,
 * each offering one answer per learning style.
 */
module VarkQuestions {
  import opened Wrappers

  /** The closed set of learning styles: 'visual' | 'auditory' | 'reading' | 'kinesthetic'. */
  datatype Style = Visual | Auditory | Reading | Kinesthetic

  /** The string tag a style carries in the source. */
  function StyleName(s: Style): string
  {
    match s
    case Visual => "visual"
    case Auditory => "auditory"
    case Reading => "reading"
    case Kinesthetic => "kinesthetic"
  }

  /** Reads a string tag back as a style; any other string is not a style. */
  function ParseStyle(name: string): (r: Option<Style>)
    ensures r.Some? ==> StyleName(r.value) == name
    ensures r.None? ==> forall st :: StyleName(st) != name
  {
    if name == "visual" then Some(Visual)
    else if name == "auditory" then Some(Auditory)
    else if name == "reading" then Some(Reading)
    else if name == "kinesthetic" then Some(Kinesthetic)
    else None
  }

  /** Reading back a style's tag gives the style: tags are distinct. */
  lemma StyleNameRoundTrip(st: Style)
    ensures ParseStyle(StyleName(st)) == Some(st)
  {
  }

  /** The order in which every question lists its options. */
  const StyleOrder: seq<Style> := [Visual, Auditory, Reading, Kinesthetic]

  /**
   * A question as scoring sees it: its id and the style each option stands
   * for, in the order the options are shown. The wording lives in `Wording`.
   */
  datatype VarkQuestion = VarkQuestion(id: int, options: seq<Style>)

  /** A question whose four options are listed visual, auditory, reading, kinesthetic. */
  function Q(id: int): VarkQuestion
  {
    VarkQuestion(id, [Visual, Auditory, Reading, Kinesthetic])
  }

  const Questions: seq<VarkQuestion> := [
    Q(1),
    Q(2),
    Q(3),
    Q(4),
    Q(5),
    Q(6),
    Q(7),
    Q(8),
    Q(9),
    Q(10)
  ]

  /**
   * The Portuguese wording of the bank: for question i, the prompt followed by
   * the text of each option, in the order of `Questions[i].options`.
   */
  const Wording: seq<seq<string>> := [
    ["Quando você precisa aprender a usar um novo aplicativo, você prefere:",
     "Assistir a um vídeo tutorial mostrando o passo a passo.",
     "Ouvir alguém explicando como usar e fazer perguntas.",
     "Ler o manual ou as instruções escritas.",
     "Ir testando e explorando por conta própria."],
    ["Em uma palestra ou aula, o que mais ajuda você a entender o conteúdo?",
     "Slides com gráficos, esquemas e imagens.",
     "A fala clara e a entonação do palestrante.",
     "Receber um resumo por escrito.",
     "Participar com atividades, demonstrações ou experiências."],
    ["Quando você tenta memorizar algo, o que costuma fazer?",
     "Associa imagens ou esquemas mentais ao conteúdo.",
     "Repete em voz alta ou grava áudios para ouvir depois.",
     "Faz anotações, resumos ou reescreve várias vezes.",
     "Associa com movimentos, situações práticas ou exemplos do dia a dia."],
    ["Ao receber uma receita culinária nova, você prefere:",
     "Ver um vídeo mostrando a receita sendo preparada.",
     "Ouvir alguém explicando o passo a passo por telefone ou pessoalmente.",
     "Ler a receita escrita com todos os detalhes.",
     "Ir preparando enquanto aprende, mesmo que erre."],
    ["Quando está em um museu ou local histórico, o que mais chama sua atenção?",
     "As imagens, maquetes e exposições visuais.",
     "Os áudios com explicações ou guias falando sobre o local.",
     "As placas com textos explicativos.",
     "As reconstruções interativas ou a possibilidade de tocar objetos."],
    ["Para aprender um novo idioma, você prefere:",
     "Usar aplicativos com imagens e associações visuais.",
     "Ouvir músicas, podcasts ou conversar com nativos.",
     "Ler textos e fazer anotações de vocabulário.",
     "Praticar situações reais, como simulações de diálogos."],
    ["Quando está tentando lembrar o nome de uma pessoa, você costuma:",
     "Visualizar o rosto dela ou o local onde a viu.",
     "Recordar a voz ou a conversa que tiveram.",
     "Lembrar como o nome era escrito.",
     "Recordar o que estavam fazendo juntos."],
    ["Diante de um novo conteúdo na escola/faculdade, você sente mais facilidade quando:",
     "O professor usa esquemas, gráficos e imagens.",
     "A explicação é verbal e clara.",
     "Há materiais de leitura, apostilas ou slides disponíveis.",
     "Você participa de experimentos ou atividades práticas."],
    ["Em uma loja ou lugar novo, você costuma se orientar melhor:",
     "Observando placas, mapas ou sinalizações visuais.",
     "Perguntando a alguém como chegar ao local.",
     "Lendo descrições ou instruções do local.",
     "Caminhando, testando caminhos até encontrar."],
    ["Qual destas atividades você acha mais agradável para aprender algo novo?",
     "Desenhar ou assistir vídeos explicativos.",
     "Participar de discussões em grupo ou ouvir podcasts.",
     "Ler livros, artigos e fazer anotações.",
     "Praticar diretamente, montar, desmontar, experimentar."]
  ]

  /** Question `i` has id i+1 and lists one option per style, in StyleOrder. */
  ghost predicate WellFormedQuestion(q: VarkQuestion, i: int)
  {
    q.id == i + 1 &&
    |q.options| == |StyleOrder| &&
    forall j :: 0 <= j < |q.options| ==> q.options[j] == StyleOrder[j]
  }

  /** The bank holds exactly ten questions, each well formed for its position. */
  lemma BankIsWellFormed()
    ensures |Questions| == 10
    ensures forall i :: 0 <= i < |Questions| ==> WellFormedQuestion(Questions[i], i)
  {
  }

  /** Some option of `q` is tagged with style `s`. */
  ghost predicate Selectable(q: VarkQuestion, s: Style)
  {
    exists j :: 0 <= j < |q.options| && q.options[j] == s
  }

  /** Ids are distinct, and every style can be chosen on every question. */
  lemma EveryStyleSelectable()
    ensures forall i, j :: 0 <= i < j < |Questions| ==> Questions[i].id != Questions[j].id
    ensures forall i, s :: 0 <= i < |Questions| ==> Selectable(Questions[i], s)
  {
    BankIsWellFormed();
    forall i, s | 0 <= i < |Questions|
      ensures Selectable(Questions[i], s)
    {
      var j := match s case Visual => 0 case Auditory => 1 case Reading => 2 case Kinesthetic => 3;
      assert Questions[i].options[j] == s;
    }
  }

  /** Within a question no style appears twice. */
  lemma OptionKindsDistinct()
    ensures forall i, j, k :: 0 <= i < |Questions| && 0 <= j < k < |Questions[i].options| ==>
              Questions[i].options[j] != Questions[i].options[k]
  {
    BankIsWellFormed();
  }
}
