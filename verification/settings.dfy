/** The bot's constants: the verdict table, the status template and the message templates whose formatting can fail. */
module Settings {
  import opened PyFormat

  /** The human-readable verdict for each review status the API reports. */
  const HomeworkVerdicts: map<string, string> := map[
    "approved" := "Работа проверена: ревьюеру всё понравилось. Ура!",
    "reviewing" := "Работа взята на проверку ревьюером.",
    "rejected" := "Работа проверена: у ревьюера есть замечания."
  ]

  /** `WORK_STATUS_CHANGED.format(name, verdict)`. */
  function WorkStatusChanged(name: string, verdict: string): string
  {
    "Изменился статус проверки работы \"" + name + "\". " + verdict
  }

  /** The replacement fields of ABSENCE_ENVIRONMENT_VARIABLES: one named field. */
  const AbsenceEnvironmentVariables: seq<Field> := [Named("missing_token")]

  /** The replacement fields of REQUEST_ERROR_MESSAGE, in order. */
  const RequestErrorMessage: seq<Field> := [Named("url"), Named("headers"), Named("params"), Named("error")]

  /** The replacement fields of FAILED_DECODE_IN_JSON: two automatic fields. */
  const FailedDecodeInJson: seq<Field> := [Auto, Auto]
}
