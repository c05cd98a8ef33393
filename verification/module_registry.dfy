/** core/module-registry.ts: a string-keyed table of handlers. */
module ModuleRegistry {
  import opened Wrappers
  import Api

  /** The registry's table. Handlers are modelled as total functions of their
      arguments; their own failures and asynchrony are not modelled. */
  type Registry<!A, R> = map<string, A -> R>

  /** `register(key, handler)`: adds or replaces the key's handler. */
  function Register<A, R>(reg: Registry<A, R>, key: string, handler: A -> R): (r: Registry<A, R>)
    ensures key in r && r[key] == handler
    ensures r.Keys == reg.Keys + {key}
    ensures forall k :: k in reg && k != key ==> r[k] == reg[k]
  {
    reg[key := handler]
  }

  /** The error `resolve` throws for an unknown key. */
  function NotFound(key: string): Api.Thrown
  {
    Api.Error(Api.PlainError, "Module " + key + " not found")
  }

  /** `resolve(key, ...args)`: the key's handler applied to the arguments. */
  function Resolve<A, R>(reg: Registry<A, R>, key: string, args: A): (r: Result<R, Api.Thrown>)
    ensures key !in reg <==> r == Failure(NotFound(key))
    ensures key in reg ==> r == Success(reg[key](args))
  {
    if key !in reg then Failure(NotFound(key)) else Success(reg[key](args))
  }

  /** After `register(k, h)`, `resolve(k, args)` calls `h` with the arguments. */
  lemma RegisteredHandlerResolves<A, R>(reg: Registry<A, R>, key: string, handler: A -> R, args: A)
    ensures Resolve(Register(reg, key, handler), key, args) == Success(handler(args))
  {
  }

  /** Registering one key leaves how every other key resolves unchanged. */
  lemma RegisterIsLocal<A, R>(reg: Registry<A, R>, key: string, handler: A -> R, other: string, args: A)
    requires other != key
    ensures Resolve(Register(reg, key, handler), other, args) == Resolve(reg, other, args)
  {
  }

  /** Registering twice under one key keeps only the second handler. */
  lemma ReRegisterOverwrites<A, R>(reg: Registry<A, R>, key: string, first: A -> R, second: A -> R)
    ensures Register(Register(reg, key, first), key, second) == Register(reg, key, second)
  {
  }

  /** A missing module surfaces as a 500 through `handleApiError`. */
  lemma MissingModuleIs500<T>(key: string)
    ensures Api.HandleApiError<T>(NotFound(key)).status == 500
  {
    assert NotFound(key).message[0] == 'M';
  }
}
