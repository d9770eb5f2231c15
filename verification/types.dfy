/** The shared option, result and error types of the translator. */
module Types {

  datatype Option<+T> = None | Some(value: T)

  datatype Result<+T, +E> = Ok(value: T) | Err(error: E)

  /** The four kinds of failure a provider reports. */
  datatype ErrorType = RateLimit | ApiError | NetworkError | Unknown

  /** A provider's failure: its message, its kind and the provider's name. */
  datatype TranslationError = TranslationError(message: string, kind: ErrorType, provider: string)

  /** The options of one call. The empty string and 0 stand for an absent
      field, as the JavaScript falsy checks treat them alike. */
  datatype TranslationOptions = TranslationOptions(
    targetLanguage: string,
    sourceLanguage: string,
    chunkSize: int,
    specificProvider: string)

  datatype TranslationResult = TranslationResult(translatedText: string, provider: string, chunks: nat)

  /** What one provider request yields: the translated text, or the error it throws. */
  datatype Outcome = Success(text: string) | Failure(error: TranslationError)
}
