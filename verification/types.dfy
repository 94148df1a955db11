/** The records the access-control engine works on: permission levels, protected
    assets and the actors that hold permissions on them (types.ts:58-71). */
module Types {

  /** Access tier of one actor on one asset. */
  datatype Permission = Denied | Read | Write | Admin

  datatype Category = Model | Data | Infrastructure | Secret

  datatype RiskLevel = Critical | High | Medium | Low

  /** A protected resource; its risk level is the only field that ever changes. */
  datatype Asset = Asset(id: string, name: string, category: Category, riskLevel: RiskLevel)

  /** A role-holder. The role is free text; the policies key off a few fixed values. */
  datatype Actor = Actor(id: string, name: string, role: string)

  datatype Option<T> = None | Some(value: T)

  const Engineering: string := "Engineering"
  const Audit: string := "Audit"
  const Compliance: string := "Compliance"
}
