/** The responses of the Next.js route handlers: a status code and a JSON body that is
    either the data the handler returns or an object `{ "error": message }`. */
module Http {

  datatype Body<T> = Data(value: T) | Error(message: string)

  datatype Response<T> = Response(status: int, body: Body<T>)
}
