/** The calls the probe makes to the outside world, recorded in the order it
    makes them. Their outcomes are inputs of the model; only the fact that a
    call happened, and with which arguments, is observable here. */
module Effects {

  datatype Call =
      /** `get_gateway()`: runs the platform's route command (macOS, Windows only). */
    | GatewayLookup
      /** `ping_host(gateway)`: runs the given ping command line. */
    | GatewayPing(cmd: seq<string>)
      /** `get_public_data()`: one GET to the geolocation service. */
    | PublicLookup
      /** `get_true_ping()`: runs the given ping command line and reads its output. */
    | LatencyPing(cmd: seq<string>)
      /** The download from the primary speed-test endpoint. */
    | PrimaryDownload
      /** The download from the backup speed-test endpoint. */
    | BackupDownload
      /** The text-generation request made by `ask_gemini`, with its API key and prompt. */
    | GeminiRequest(apiKey: string, prompt: string)
      /** `send_to_telegram(text, report)` towards the configured chat. */
    | TelegramSend(chatId: string, text: string)
      /** The file written by `save_offline`. */
    | FileWrite(path: string, text: string)
  {
    /** Calls made by the dispatch step rather than by the probes. */
    predicate IsDispatch()
    {
      GeminiRequest? || TelegramSend? || FileWrite?
    }
  }
}
