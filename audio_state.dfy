/** The turn-taking states of one phone call. */
module AudioStates {

  /** LISTENING waits for caller speech, PROCESSING runs transcription and the
      dialogue model, RESPONDING plays synthesized speech, CANCELLING is reserved
      for barge-in and is never entered by the base flow. */
  datatype AudioState = Listening | Processing | Responding | Cancelling
}
