/**
 * The aggregation-stage primitives the search builder composes. The builder
 * class that provides them is not part of this model; each is written here in
 * the document store's own stage syntax (`{'$match': ...}`, `{'$lookup': ...}`).
 */
module Query {
  import opened Json

  function Match(cond: Value): Value {
    Single("$match", cond)
  }

  /** `{field: {'$regex': pattern, '$options': options}}`: the pattern is passed through unescaped. */
  function Regex(field: string, pattern: string, options: string): Value {
    Single(field, Dict([Member("$regex", Str(pattern)), Member("$options", Str(options))]))
  }

  function In(field: string, values: seq<Value>): Value {
    Single(field, Single("$in", List(values)))
  }

  function Or(conds: seq<Value>): Value {
    Single("$or", List(conds))
  }

  function Eq(v: Value): Value {
    Single("$eq", v)
  }

  function Count(as_: string): Value {
    Single("$count", Str(as_))
  }

  function Skip(n: int): Value {
    Single("$skip", Int(n))
  }

  function Limit(n: int): Value {
    Single("$limit", Int(n))
  }

  function Unwind(path: string): Value {
    Single("$unwind", Str(path))
  }

  function Project(spec: seq<Member>): Value {
    Single("$project", Dict(spec))
  }

  function Sort(field: string, direction: int): Value {
    Single("$sort", Single(field, Int(direction)))
  }

  function Facet(branches: seq<Member>): Value {
    Single("$facet", Dict(branches))
  }

  function ReplaceRoot(newRoot: Value): Value {
    Single("$replaceRoot", Single("newRoot", newRoot))
  }

  /** A join on `localField == foreignField`. */
  function Lookup(from: string, localField: string, foreignField: string, as_: string): Value {
    Single("$lookup", Dict([
      Member("from", Str(from)), Member("localField", Str(localField)),
      Member("foreignField", Str(foreignField)), Member("as", Str(as_))]))
  }

  /** A join driven by a sub-pipeline with `let` bindings. */
  function LookupSub(from: string, let_: seq<Member>, pipeline: seq<Value>, as_: string): Value {
    Single("$lookup", Dict([
      Member("from", Str(from)), Member("let", Dict(let_)),
      Member("pipeline", List(pipeline)), Member("as", Str(as_))]))
  }

  /** `{'$group': {'_id': id, **accumulators}}`. */
  function Group(id: Value, accumulators: seq<Member>): Value {
    Single("$group", Dict([Member("_id", id)] + accumulators))
  }
}
