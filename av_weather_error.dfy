/** The error a request's `decode` throws. */
module AvWeatherErrors {
  datatype AvWeatherError =
    | Parsing(message: string)
    | Server(message: string)
    | Generic(message: string)
}
