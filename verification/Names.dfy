/** What the names of an expression stand for, said from the declarations: every declared variable,
    field and metric has a name that resolves to it, and no other name resolves. */
module Names {
  import opened Options
  import opened Rendering

  predicate Undotted(s: string) {
    forall i: nat :: i < |s| ==> s[i] != '.'
  }

  lemma {:induction false} DotIndexIs(left: string, right: string)
    requires Undotted(left)
    ensures DotIndex(left + "." + right) == |left|
  {
    var s := left + "." + right;
    if left == "" {
      assert s[0] == '.';
    } else {
      assert s[1..] == left[1..] + "." + right;
      DotIndexIs(left[1..], right);
    }
  }

  /** A name with a dot that is not itself a variable is looked up by its two parts. */
  lemma QualifiedName(scope: Scope, left: string, right: string, fields: bool)
    requires Undotted(left) && left + "." + right !in scope.vars
    ensures Resolve(scope, left + "." + right, fields) == ResolveQualified(scope, left, right, fields)
  {
    var name := left + "." + right;
    DotIndexIs(left, right);
    assert name[..|left|] == left && name[|left| + 1..] == right;
    assert name[|left|] == '.';
    NoFunctionIsDotted(name, |left|);
  }

  lemma NoFunctionIsDotted(name: string, i: nat)
    requires i < |name| && name[i] == '.'
    ensures DistributionFunc(name).None? && Cast(name).None? && name != "true" && name != "false"
  {
    assert forall k: nat :: k < |"triangular"| ==> "triangular"[k] != '.';
    assert forall k: nat :: k < |"exponential"| ==> "exponential"[k] != '.';
  }

  predicate Reserved(name: string) {
    name == "true" || name == "false"
  }

  /** A declared variable has its declared type, for whatever entity the expression is evaluated. */
  lemma VariableResolves(scope: Scope, name: string, fields: bool)
    requires name in scope.vars && !Reserved(name)
    ensures Resolve(scope, name, fields) == Some(Resolved("var_" + name, scope.vars[name], None))
  {
  }

  /** Where fields may be read, a declared field has its declared type and ties the expression to its
      entity type; where they may not, its name is an error. */
  lemma FieldResolves(scope: Scope, entity: string, field: string, fields: bool)
    requires entity in scope.entities && field in scope.entities[entity] && Undotted(entity)
    requires entity + "." + field !in scope.vars && (entity, field) != ("Simulation", "clock")
    ensures Resolve(scope, entity + "." + field, fields) ==
              if fields then Some(Resolved("pool_entity_" + entity + ".Entities[ref.Idx].field_" + field,
                                           scope.entities[entity][field], Some(entity)))
              else None
  {
    QualifiedName(scope, entity, field, fields);
  }

  lemma BlockMetricResolves(scope: Scope, block: string, metric: string, fields: bool)
    requires block in scope.blocks && metric in BlockMetrics(scope.blocks[block]) && Undotted(block)
    requires block !in scope.entities && block + "." + metric !in scope.vars
    requires (block, metric) != ("Simulation", "clock")
    ensures Resolve(scope, block + "." + metric, fields) ==
              Some(Resolved("block_" + KindName(scope.blocks[block]) + "_" + block + "." + metric, Uint64, None))
  {
    QualifiedName(scope, block, metric, fields);
  }

  lemma ResourceMetricResolves(scope: Scope, resource: string, metric: string, fields: bool)
    requires resource in scope.resources && metric in ResourceMetrics() && Undotted(resource)
    requires resource !in scope.entities && resource !in scope.blocks && resource + "." + metric !in scope.vars
    requires (resource, metric) != ("Simulation", "clock")
    ensures Resolve(scope, resource + "." + metric, fields) ==
              Some(Resolved("resource_" + resource + "." + metric, Uint64, None))
  {
    QualifiedName(scope, resource, metric, fields);
  }

  lemma ClockResolves(scope: Scope, fields: bool)
    requires "Simulation.clock" !in scope.vars
    ensures Resolve(scope, "Simulation.clock", fields) == Some(Resolved("clock", Float64, None))
  {
    assert "Simulation.clock" == "Simulation" + "." + "clock";
    QualifiedName(scope, "Simulation", "clock", fields);
  }

  /** left and right are a declared thing and something of it that can be read. */
  predicate Declared(scope: Scope, left: string, right: string, fields: bool) {
    || (left == "Simulation" && right == "clock")
    || (fields && left in scope.entities && right in scope.entities[left])
    || (left !in scope.entities && left in scope.blocks && right in BlockMetrics(scope.blocks[left]))
    || (left !in scope.entities && left !in scope.blocks && left in scope.resources && right in ResourceMetrics())
  }

  /** Any other name is an error. */
  lemma OnlyDeclaredResolve(scope: Scope, name: string, fields: bool)
    ensures Resolve(scope, name, fields).Some? <==>
              || Reserved(name) || name in scope.vars
              || exists left, right ::
                   name == left + "." + right && Undotted(left) && Declared(scope, left, right, fields)
  {
    hide BlockMetrics, ResourceMetrics;
    if !Reserved(name) && name !in scope.vars {
      var dot := DotIndex(name);
      if dot < |name| {
        var l, r := name[..dot], name[dot + 1..];
        assert name == l + "." + r;
        DotIndexIsFirst(name);
        QualifiedName(scope, l, r, fields);
        assert Resolve(scope, name, fields).Some? <==> Declared(scope, l, r, fields);
      }
      forall left, right | name == left + "." + right && Undotted(left)
        ensures Resolve(scope, name, fields).Some? <==> Declared(scope, left, right, fields)
      {
        QualifiedName(scope, left, right, fields);
      }
    }
  }

  lemma {:induction false} DotIndexIsFirst(name: string)
    ensures Undotted(name[..DotIndex(name)])
  {
    if name != "" && name[0] != '.' {
      DotIndexIsFirst(name[1..]);
      var l := name[..DotIndex(name)];
      assert forall i: nat :: 0 < i < |l| ==> l[i] == name[1..][..DotIndex(name[1..])][i - 1];
    }
  }
}
