/** Routes, the paths the guards know, and the decision a guard returns. */
module Routing {

  /** The parts of a router location; the guards read only `path`. */
  datatype Route = Route(path: string, query: string, hash: string)

  /** `next()` or returning nothing, versus `next(p)` or `navigateTo(p)`. */
  datatype Decision = Allow | RedirectTo(target: string)

  const HomePath: string := "/"
  const LoginPath: string := "/login"
  const RegisterPath: string := "/register"
  const AdminPrefix: string := "/admin"
}
