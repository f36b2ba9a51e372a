/**
 * The texts the service sends and returns. The route is specified for any
 * wording that has a prompt for every key; `Original` is the wording of the
 * service itself.
 */
module Wording {
  import opened Script

  datatype Texts = Texts(
    questions: map<Key, string>,     // questions_dict
    script: string,                  // the assistant's instructions
    apology: string,                 // the reply stored for a non-string model result
    restart: string,                 // the instruction to type 'start report'
    restartAfterError: string,       // the same after an empty state
    missingQuestion: string,         // the default of questions_dict.get
    reportCompleted: string,
    unexpectedEnd: string,
    notification: string,            // sent once the report is rendered
    summaryDone: string,             // returned once the report is rendered
    reportTitle: string,
    asking: string)                  // prefix of the result of ask_question

  /** Every key has a prompt, so `questions_dict[key]` never fails. */
  predicate Complete(t: Texts) {
    forall k: Key :: k in t.questions
  }

  const Original: Texts := Texts(
    map[
      Start := "¡Bienvenido! Vamos a empezar con tu historial médico. ¿Cuál es tu nombre completo?",
      Dni := "¿Cuál es tu DNI?",
      Edad := "¿Cuál es tu edad?",
      Operaciones := "¿Te han operado alguna vez? Si es así, ¿qué tipo de operación fue y cuándo la realizaste?",
      Alergias := "¿Tienes alguna alergia? Si es así, ¿a qué eres alérgico?",
      EnfermedadesCronicas := "¿Padeces alguna enfermedad crónica? Si es así, ¿cuál o cuáles?",
      MedicamentosActuales := "¿Estás tomando algún medicamento actualmente? Si es así, ¿cuáles?",
      Finish := "Thank you for your responses! Your review is complete."
    ],
    "You are a helpful assistant, designed to assist users with questions about their report. "
    + "Ensure you use the context of the report to provide accurate answers."
    + "Output the answer in an organized list format.",
    "Sorry, I couldn't generate a response.",
    "Please start your report by typing 'start report'.",
    "There seems to be an error. Please start your report by typing 'start report'.",
    "Could not find the previous question.",
    "Report completed.",
    "Unexpected end of conversation.",
    "Your report summary has been created.",
    "Summary PDF generated.",
    "Medical Report Summary",
    "Asking question: ")

  /** The service's question dictionary has a prompt for every key. */
  lemma OriginalComplete()
    ensures Complete(Original)
  {
    forall k: Key ensures k in Original.questions {
      match k
      case Start =>
      case Dni =>
      case Edad =>
      case Operaciones =>
      case Alergias =>
      case EnfermedadesCronicas =>
      case MedicamentosActuales =>
      case Finish =>
    }
  }
}
