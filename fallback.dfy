/**
 * The canned answers of IAService: GetFallbackResponse chooses advice by keyword,
 * GetFallbackTranscription names the file it could not transcribe.
 */
module Fallback {
  import opened Text

  /** The topics GetFallbackResponse recognises, in the order it tests them. */
  datatype Topic = Homework | Exam | Planning | Motivation | General

  const TopicOrder: seq<Topic> := [Homework, Exam, Planning, Motivation]

  function Keywords(t: Topic): seq<string>
  {
    match t
    case Homework => ["tarea", "estudiar"]
    case Exam => ["examen", "prueba"]
    case Planning => ["organizar", "planificar"]
    case Motivation => ["motivación", "motivado"]
    case General => []
  }

  function Advice(t: Topic): string
  {
    match t
    case Homework =>
      "Para ayudarte mejor con tus tareas, te recomiendo:\n\n" +
      "1. Divide tu tarea en partes más pequeñas\n" +
      "2. Establece horarios específicos para cada parte\n" +
      "3. Toma descansos regulares de 10-15 minutos\n" +
      "4. Usa técnicas de memorización como mapas mentales\n" +
      "5. Revisa tus apuntes antes de empezar\n\n" +
      "¿Hay algo específico con lo que necesites ayuda?"
    case Exam =>
      "Para prepararte para un examen, te sugiero:\n\n" +
      "1. Comienza a estudiar con al menos una semana de anticipación\n" +
      "2. Revisa tus apuntes y material del curso\n" +
      "3. Practica con ejercicios similares\n" +
      "4. Forma grupos de estudio con compañeros\n" +
      "5. Descansa bien la noche anterior\n" +
      "6. Llega temprano el día del examen\n\n" +
      "¡Mucho éxito en tu examen!"
    case Planning =>
      "Para organizar mejor tu tiempo de estudio:\n\n" +
      "1. Usa un calendario o agenda\n" +
      "2. Prioriza las tareas según su importancia y fecha de entrega\n" +
      "3. Establece metas diarias alcanzables\n" +
      "4. Elimina distracciones durante el estudio\n" +
      "5. Utiliza la técnica Pomodoro (25 minutos de estudio, 5 de descanso)\n\n" +
      "¿Te gustaría ayuda con algo más específico?"
    case Motivation =>
      "Mantener la motivación es clave para el éxito académico:\n\n" +
      "1. Establece objetivos claros y realistas\n" +
      "2. Celebra tus pequeños logros\n" +
      "3. Recuerda tus metas a largo plazo\n" +
      "4. Busca un lugar de estudio cómodo y tranquilo\n" +
      "5. Recompénsate después de completar tareas difíciles\n\n" +
      "¡Tú puedes lograrlo!"
    case General =>
      "Gracias por tu pregunta. Actualmente estoy experimentando dificultades técnicas " +
      "para conectarme con los servicios de IA.\n\n" +
      "Sin embargo, estoy aquí para ayudarte con:\n" +
      "- Organización de tareas y horarios de estudio\n" +
      "- Recordatorios de eventos importantes\n" +
      "- Consejos generales para mejorar tu rendimiento académico\n\n" +
      "Por favor, intenta reformular tu pregunta o especifica en qué área necesitas ayuda."
  }

  /** GetFallbackResponse: the advice of the topic the lower-cased prompt falls under. */
  function FallbackResponse(prompt: string): string
  {
    Advice(KeywordTopic(Lower(prompt)))
  }

  /** The chain of `if`s of GetFallbackResponse, each testing two keywords. */
  function KeywordTopic(lowerPrompt: string): Topic
  {
    if Contains(lowerPrompt, "tarea") || Contains(lowerPrompt, "estudiar") then Homework
    else if Contains(lowerPrompt, "examen") || Contains(lowerPrompt, "prueba") then Exam
    else if Contains(lowerPrompt, "organizar") || Contains(lowerPrompt, "planificar") then Planning
    else if Contains(lowerPrompt, "motivación") || Contains(lowerPrompt, "motivado") then Motivation
    else General
  }

  // Reference definition: the first topic of TopicOrder one of whose keywords occurs.

  predicate Mentions(lowerPrompt: string, t: Topic)
  {
    exists k :: k in Keywords(t) && Contains(lowerPrompt, k)
  }

  function FirstMentioned(lowerPrompt: string, topics: seq<Topic>): Topic
  {
    if topics == [] then General
    else if Mentions(lowerPrompt, topics[0]) then topics[0]
    else FirstMentioned(lowerPrompt, topics[1..])
  }

  function TopicOf(prompt: string): Topic
  {
    FirstMentioned(Lower(prompt), TopicOrder)
  }

  lemma MentionsEither(l: string, t: Topic)
    ensures Mentions(l, t) <==> t != General && (Contains(l, Keywords(t)[0]) || Contains(l, Keywords(t)[1]))
  {
    if t != General && Contains(l, Keywords(t)[0]) {
      assert Keywords(t)[0] in Keywords(t);
    }
    if t != General && Contains(l, Keywords(t)[1]) {
      assert Keywords(t)[1] in Keywords(t);
    }
  }

  /**
   * The `if` chain of GetFallbackResponse picks the first topic, in TopicOrder, that the
   * lower-cased prompt mentions, so FallbackResponse(prompt) is Advice(TopicOf(prompt)).
   */
  lemma FallbackFollowsTopicOrder(prompt: string)
    ensures KeywordTopic(Lower(prompt)) == TopicOf(prompt)
  {
    var l := Lower(prompt);
    MentionsEither(l, Homework);
    MentionsEither(l, Exam);
    MentionsEither(l, Planning);
    MentionsEither(l, Motivation);
    assert [Motivation][1..] == [];
    assert FirstMentioned(l, [Motivation]) == if Mentions(l, Motivation) then Motivation else General;
    assert [Planning, Motivation][1..] == [Motivation];
    assert FirstMentioned(l, [Planning, Motivation])
           == if Mentions(l, Planning) then Planning else FirstMentioned(l, [Motivation]);
    assert [Exam, Planning, Motivation][1..] == [Planning, Motivation];
    assert FirstMentioned(l, [Exam, Planning, Motivation])
           == if Mentions(l, Exam) then Exam else FirstMentioned(l, [Planning, Motivation]);
    assert TopicOrder[1..] == [Exam, Planning, Motivation];
  }

  /** The topic chosen is mentioned and no earlier topic is; General exactly when none is mentioned. */
  lemma {:induction false} FirstMentionedSpec(lowerPrompt: string, topics: seq<Topic>)
    ensures var t := FirstMentioned(lowerPrompt, topics);
            (t == General <==> forall i :: 0 <= i < |topics| ==> !Mentions(lowerPrompt, topics[i]))
            && (t != General ==> exists i :: 0 <= i < |topics| && topics[i] == t && Mentions(lowerPrompt, t)
                                             && forall j :: 0 <= j < i ==> !Mentions(lowerPrompt, topics[j]))
    decreases |topics|
  {
    if topics != [] {
      FirstMentionedSpec(lowerPrompt, topics[1..]);
      var t := FirstMentioned(lowerPrompt, topics);
      if !Mentions(lowerPrompt, topics[0]) {
        if t != General {
          var i :| 0 <= i < |topics[1..]| && topics[1..][i] == t && Mentions(lowerPrompt, t)
                   && forall j :: 0 <= j < i ==> !Mentions(lowerPrompt, topics[1..][j]);
          assert topics[i + 1] == t;
          forall j | 0 <= j < i + 1 ensures !Mentions(lowerPrompt, topics[j]) {
            if j > 0 {
              assert topics[j] == topics[1..][j - 1];
            }
          }
        }
        if forall i :: 0 <= i < |topics[1..]| ==> !Mentions(lowerPrompt, topics[1..][i]) {
          forall i | 0 <= i < |topics| ensures !Mentions(lowerPrompt, topics[i]) {
            if i > 0 {
              assert topics[i] == topics[1..][i - 1];
            }
          }
        }
      } else {
        assert topics[0] != General ==> topics[0] == t;
      }
    }
  }

  /** The answer does not depend on letter case: the prompt and its lower-cased form get the same advice. */
  lemma FallbackIgnoresCase(prompt: string)
    ensures FallbackResponse(Lower(prompt)) == FallbackResponse(prompt)
  {
    LowerIdempotent(prompt);
  }

  /** A prompt that mentions an exam and homework gets the homework advice: the earlier topic wins. */
  lemma EarlierTopicWins(l: string)
    requires l == "tengo examen y tarea"
    ensures Contains(Lower(l), "examen")
    ensures KeywordTopic(Lower(l)) == Homework
  {
    LowerKeeps(l);
    ContainsAt(l, "tarea", 15);
    ContainsAt(l, "examen", 6);
  }

  /**
   * Keywords are matched as written: "organizo" (I organise) mentions no topic, since the
   * planning keyword is the infinitive "organizar", and gets the general answer.
   */
  lemma ConjugatedVerbIsGeneral(l: string)
    requires l == "organizo"
    ensures KeywordTopic(Lower(l)) == General
    ensures FallbackResponse(l) == Advice(General)
  {
    LowerKeeps(l);
    FirstCharAbsent(l, "tarea");
    FirstCharAbsent(l, "estudiar");
    FirstCharAbsent(l, "examen");
    FirstCharAbsent(l, "prueba");
    FirstCharAbsent(l, "planificar");
    FirstCharAbsent(l, "motivación");
    FirstCharAbsent(l, "motivado");
  }

  /** The two fixed parts of the transcription notice, around the file name. */
  datatype NoticePart = Opening | Closing

  function Notice(part: NoticePart): string
  {
    match part
    case Opening => "[Transcripción simulada]\n\n" + "El archivo de audio '"
    case Closing =>
      "' fue recibido correctamente, pero actualmente " +
      "los servicios de transcripción no están disponibles.\n\n" +
      "Para habilitar la transcripción real:\n" +
      "1. Configure una API Key válida de Hugging Face en appsettings.json\n" +
      "2. O configure una API Key válida de Gemini AI\n\n" +
      "Formatos soportados: MP3, WAV, M4A, OGG\n" +
      "Tamaño máximo recomendado: 10MB\n\n" +
      "Una vez configurado, podrá transcribir audio en tiempo real."
  }

  /** GetFallbackTranscription: the notice names the file it was given. */
  function FallbackTranscription(fileName: string): (r: string)
    ensures Contains(r, fileName)
  {
    ContainsConcat(Notice(Opening), fileName, Notice(Closing));
    Notice(Opening) + fileName + Notice(Closing)
  }
}
