/**
 * The static question bank, the list of professions offered by the lead
 * form, and the contact record the form collects (app/data/quizData.ts).
 */
module QuizData {
  import opened Wrappers

  datatype Difficulty = Easy | Medium | Hard

  /**
   * One quiz item; the optional fields of the source are Options.  The
   * three long texts of an item (the question and its two feedbacks) are
   * kept apart, in WordingOf, keyed by the item's id.
   */
  datatype QuizQuestion = QuizQuestion(
    id: int,
    options: seq<string>,
    correctAnswer: int,
    image: Option<string>,
    difficulty: Difficulty,
    imageUrl: Option<string>,
    category: Option<string>,
    timeLimit: Option<int>)

  /** The four fields of the lead form, named as the form's inputs are. */
  datatype Field = Name | Email | Phone | Profession

  /** The contact record: one string per field. */
  datatype UserInfo = UserInfo(name: string, email: string, phone: string, profession: string) {

    function Get(f: Field): string {
      match f
      case Name => name
      case Email => email
      case Phone => phone
      case Profession => profession
    }

    /** The record with field `f` replaced by `v`, as `{ ...prev, [f]: v }`. */
    function With(f: Field, v: string): (r: UserInfo)
      ensures r.Get(f) == v
      ensures forall g :: g != f ==> r.Get(g) == Get(g)
    {
      match f
      case Name => this.(name := v)
      case Email => this.(email := v)
      case Phone => this.(phone := v)
      case Profession => this.(profession := v)
    }
  }

  const EmptyUserInfo := UserInfo("", "", "", "")

  /** A question the screens can show and score: four options, a correct one among them. */
  predicate WellFormed(q: QuizQuestion) {
    |q.options| == 4 && 0 <= q.correctAnswer < |q.options|
  }

  /** The wording of one question: its text and the two feedback texts. */
  datatype Wording = Wording(question: string, correctFeedback: string, incorrectFeedback: string)

  /**
   * A wording whose two feedback texts start differently, so that the
   * screen can never show one in place of the other.  Each feedback is
   * given as its first word and the rest of the text.
   */
  function Worded(question: string, correctHead: string, correctTail: string,
                  incorrectHead: string, incorrectTail: string): (w: Wording)
    requires correctHead != [] && incorrectHead != [] && correctHead[0] != incorrectHead[0]
    ensures w.question == question
    ensures w.correctFeedback == correctHead + correctTail && w.incorrectFeedback == incorrectHead + incorrectTail
    ensures w.correctFeedback != w.incorrectFeedback
  {
    var w := Wording(question, correctHead + correctTail, incorrectHead + incorrectTail);
    assert w.correctFeedback[0] == correctHead[0] && w.incorrectFeedback[0] == incorrectHead[0];
    w
  }

  /**
   * The wording of each question, by id.  The question text and the rest
   * of each feedback text after its first word are constants of their
   * own: the verifier never needs to look into them.
   */
  const Wording1 := Worded(Question1,
      "Parabéns!", CorrectRest1, "Não", IncorrectRest1)
  const Question1 := "Qual é o maior osso do corpo humano?"
  const CorrectRest1 := " O fêmur é realmente o maior e mais forte osso do corpo humano, localizado na coxa."
  const IncorrectRest1 := " foi dessa vez! O fêmur é o maior osso do corpo humano. Ele é um osso longo localizado na coxa."

  const Wording2 := Worded(Question2,
      "Excelente!", CorrectRest2, "Quase", IncorrectRest2)
  const Question2 := "Qual órgão é responsável por filtrar o sangue e remover resíduos?"
  const CorrectRest2 := " Os rins são fundamentais para filtrar o sangue, remover resíduos e controlar o equilíbrio hídrico do corpo."
  const IncorrectRest2 := " lá! São os rins que filtram o sangue e removem resíduos, formando a urina para eliminar toxinas do corpo."

  const Wording3 := Worded(Question3,
      "Perfeito!", CorrectRest3, "Está", IncorrectRest3)
  const Question3 := "Quantas vértebras compõem a coluna vertebral humana?"
  const CorrectRest3 := " A coluna vertebral humana é composta por 33 vértebras: 7 cervicais, 12 torácicas, 5 lombares, 5 sacrais (fundidas) e 4 coccígeas (fundidas)."
  const IncorrectRest3 := " perto! A coluna vertebral humana tem 33 vértebras no total, incluindo as vértebras fundidas do sacro e cóccix."

  const Wording4 := Worded(Question4,
      "Correto!", CorrectRest4, "Interessante", IncorrectRest4)
  const Question4 := "Qual é o músculo mais forte do corpo humano em relação ao seu tamanho?"
  const CorrectRest4 := " O masseter, músculo responsável pela mastigação, é considerado o mais forte proporcionalmente ao seu tamanho."
  const IncorrectRest4 := " escolha, mas o masseter (músculo da mandíbula) é considerado o mais forte em relação ao seu tamanho, capaz de exercer uma força impressionante durante a mastigação."

  const Wording5 := Worded(Question5,
      "Muito", CorrectRest5, "Não", IncorrectRest5)
  const Question5 := "Qual destes é um osso do ouvido médio?"
  const CorrectRest5 := " bem! O estribo é o menor osso do corpo humano e um dos três ossículos do ouvido médio, junto com o martelo e a bigorna."
  const IncorrectRest5 := " foi dessa vez! O estribo é um dos três ossículos do ouvido médio (junto com o martelo e a bigorna) e é o menor osso do corpo humano."

  const Wording6 := Worded(Question6,
      "Excelente!", CorrectRest6, "Não", IncorrectRest6)
  const Question6 := "Qual parte do encéfalo controla o equilíbrio e a coordenação motora?"
  const CorrectRest6 := " O cerebelo é responsável pelo equilíbrio, postura e coordenação dos movimentos voluntários."
  const IncorrectRest6 := " acertou! O cerebelo é a região do encéfalo responsável pelo equilíbrio, coordenação motora e postura corporal."

  const Wording7 := Worded(Question7,
      "Perfeito!", CorrectRest7, "Resposta", IncorrectRest7)
  const Question7 := "Qual é o nome da camada mais profunda da pele?"
  const CorrectRest7 := " A hipoderme (ou tecido subcutâneo) é a camada mais profunda, composta principalmente por tecido adiposo."
  const IncorrectRest7 := " incorreta. A hipoderme, também chamada de tecido subcutâneo, é a camada mais profunda da pele, rica em tecido adiposo."

  const Wording8 := Worded(Question8,
      "Correto!", CorrectRest8, "Não", IncorrectRest8)
  const Question8 := "Qual estrutura conecta os músculos aos ossos?"
  const CorrectRest8 := " Os tendões são estruturas fibrosas de tecido conjuntivo que conectam os músculos aos ossos."
  const IncorrectRest8 := " foi dessa vez! Os tendões são as estruturas que conectam os músculos aos ossos, enquanto os ligamentos conectam ossos entre si."

  const Wording9 := Worded(Question9,
      "Muito", CorrectRest9, "Resposta", IncorrectRest9)
  const Question9 := "Qual é o maior órgão do corpo humano?"
  const CorrectRest9 := " bem! A pele é o maior órgão do corpo humano em área e um dos mais importantes para proteção contra agentes externos."
  const IncorrectRest9 := " incorreta. A pele é o maior órgão do corpo humano, cobrindo uma área de aproximadamente 2 metros quadrados em um adulto médio."

  const Wording10 := Worded(Question10,
      "Perfeito!", CorrectRest10, "Não", IncorrectRest10)
  const Question10 := "Qual artéria transporta sangue oxigenado do coração para o corpo?"
  const CorrectRest10 := " A aorta é a maior artéria do corpo e responsável por transportar sangue oxigenado do ventrículo esquerdo para todo o corpo."
  const IncorrectRest10 := " acertou! A artéria aorta é a principal e maior artéria do corpo, saindo do ventrículo esquerdo e transportando sangue oxigenado para a circulação sistêmica."

  /** A table of wordings whose two feedback texts differ at every position. */
  predicate WordingsShape(ws: seq<Wording>) {
    && |ws| == BankSize
    && forall k :: 0 <= k < |ws| ==> ws[k].correctFeedback != ws[k].incorrectFeedback
  }

  /** The wordings of the bank, in the order of the questions. */
  function BankWordings(): (ws: seq<Wording>)
    ensures WordingsShape(ws)
  {
    [Wording1, Wording2, Wording3, Wording4, Wording5, Wording6, Wording7, Wording8, Wording9, Wording10]
  }

  /** The wording of the question with the given id (the ids are 1..10, the last one for any other). */
  function WordingOf(id: int): (w: Wording)
    ensures w.correctFeedback != w.incorrectFeedback
  {
    if 1 <= id <= BankSize then BankWordings()[id - 1] else Wording10
  }

  /** The wording at each position is the one of the question there. */
  lemma BankWordingsById(k: int)
    requires 0 <= k < BankSize
    ensures BankWordings()[k] == WordingOf(QuizQuestions()[k].id)
  {
    BankEntry(k);
  }

  /** `quizQuestions`: the ten anatomy questions, in the order they are asked. */
  function QuizQuestions(): (bank: seq<QuizQuestion>)
    ensures |bank| == BankSize
  {
    [
      QuizQuestion(1, ["Fêmur", "Tíbia", "Úmero", "Rádio"],
        0, None, Easy, None, Some("Sistema Esquelético"), None),
      QuizQuestion(2, ["Fígado", "Rins", "Pulmões", "Coração"],
        1, None, Easy, None, Some("Sistema Urinário"), None),
      QuizQuestion(3, ["20", "24", "33", "26"],
        2, None, Medium, None, Some("Sistema Esquelético"), None),
      QuizQuestion(4, ["Quadríceps", "Bíceps", "Masseter (músculo da mandíbula)", "Glúteo máximo"],
        2, None, Medium, None, Some("Sistema Muscular"), None),
      QuizQuestion(5, ["Etmóide", "Estribo", "Escafóide", "Esfenoide"],
        1, None, Medium, None, Some("Sistema Sensorial"), None),
      QuizQuestion(6, ["Cerebelo", "Tálamo", "Hipotálamo", "Amígdala"],
        0, None, Medium, None, Some("Sistema Nervoso"), None),
      QuizQuestion(7, ["Epiderme", "Derme", "Hipoderme", "Endoderme"],
        2, None, Hard, None, Some("Sistema Tegumentar"), None),
      QuizQuestion(8, ["Ligamentos", "Tendões", "Cartilagens", "Fáscias"],
        1, None, Medium, None, Some("Sistema Locomotor"), None),
      QuizQuestion(9, ["Fígado", "Cérebro", "Intestino grosso", "Pele"],
        3, None, Easy, None, Some("Sistema Tegumentar"), None),
      QuizQuestion(10, ["Artéria pulmonar", "Artéria coronária", "Artéria aorta", "Artéria carótida"],
        2, None, Hard, None, Some("Sistema Cardiovascular"), None)
    ]
  }

  /** `professionOptions`: the choices of the profession select. */
  function ProfessionOptions(): (options: seq<string>)
    ensures |options| == 4
    ensures forall k :: 0 <= k < |options| ==> options[k] != ""
  {
    ["Estudante de Medicina", "Estudante Área da Saúde", "Profissional da Saúde", "Médico(a)"]
  }

  /** The number of questions, `quizQuestions.length`. */
  const BankSize: nat := 10

  /**
   * What the screens rely on about a bank: ten questions, each well formed
   * and without a time limit of its own.
   */
  predicate BankShape(bank: seq<QuizQuestion>) {
    && |bank| == BankSize
    && forall i :: 0 <= i < |bank| ==> WellFormed(bank[i]) && bank[i].timeLimit == None
  }

  lemma QuizQuestionsShape()
    ensures BankShape(QuizQuestions())
  {
    BankWellFormed();
    BankHasNoTimeLimits();
  }

  /** The key facts of every entry, spelled out position by position. */
  lemma BankEntry(i: int)
    requires 0 <= i < |QuizQuestions()|
    ensures QuizQuestions()[i].id == i + 1
    ensures WellFormed(QuizQuestions()[i])
    ensures QuizQuestions()[i].timeLimit == None
  {
  }

  /** Question ids are 1..10 in array order, hence distinct. */
  lemma BankIdsArePositions()
    ensures forall i :: 0 <= i < |QuizQuestions()| ==> QuizQuestions()[i].id == i + 1
    ensures forall i, j :: 0 <= i < j < |QuizQuestions()| ==> QuizQuestions()[i].id != QuizQuestions()[j].id
  {
    forall i | 0 <= i < |QuizQuestions()| ensures QuizQuestions()[i].id == i + 1 {
      BankEntry(i);
    }
  }

  /** Every question has four options and a correct index among them. */
  lemma BankWellFormed()
    ensures forall i :: 0 <= i < |QuizQuestions()| ==> WellFormed(QuizQuestions()[i])
  {
    forall i | 0 <= i < |QuizQuestions()| ensures WellFormed(QuizQuestions()[i]) {
      BankEntry(i);
    }
  }

  /** No question sets its own time limit. */
  lemma BankHasNoTimeLimits()
    ensures forall i :: 0 <= i < |QuizQuestions()| ==> QuizQuestions()[i].timeLimit == None
  {
    forall i | 0 <= i < |QuizQuestions()| ensures QuizQuestions()[i].timeLimit == None {
      BankEntry(i);
    }
  }

  lemma ProfessionOptionsDistinct()
    ensures |ProfessionOptions()| == 4
    ensures forall i, j :: 0 <= i < j < |ProfessionOptions()| ==> ProfessionOptions()[i] != ProfessionOptions()[j]
  {
  }
}
