/**
 * The five typed proxy requests (the classes `Connect`, `Refresh`,
 * `Subscribe`, `Publish` and `RPC`), as immutable values. JSON sub-payloads
 * are already decoded into PHP arrays; `headers` is the complete decoded
 * header map of the payload.
 */
module Requests {
  import opened Wrappers
  import opened Php

  datatype Request =
    | Connect(client: string, transport: string, protocol: string, encoding: string,
              data: PhpArray, name: Option<string>, version: Option<string>,
              channels: seq<string>, headers: PhpArray)
    | Refresh(client: string, transport: string, protocol: string, encoding: string,
              user: string, meta: PhpArray, headers: PhpArray)
    | Subscribe(client: string, transport: string, protocol: string, encoding: string,
                user: string, channel: string, token: string, meta: PhpArray, data: PhpArray,
                headers: PhpArray)
    | Publish(client: string, transport: string, protocol: string, encoding: string,
              user: string, channel: string, meta: PhpArray, data: PhpArray, headers: PhpArray)
    | RPC(client: string, transport: string, protocol: string, encoding: string,
          user: string, methodName: Option<string>, meta: PhpArray, data: PhpArray, headers: PhpArray)

  /** `getData()`: the `data` the request was constructed with. */
  function GetData(r: Request): PhpArray
    requires !r.Refresh?
  {
    r.data
  }
}
