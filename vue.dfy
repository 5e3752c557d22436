/** The intermediate records: one optional slot per Options-API section, and
    one optional lowered statement list per Composition-API group. */
module Vue {
  import opened Outcomes
  import opened JsAst

  /** One injected binding: its local name, where it comes from, and an optional default. */
  datatype Inject = Inject(name: string, from: Expr, default: Option<Expr>)

  /** One watcher: the watched identifier, its handler, and the optional `deep` / `immediate` options. */
  datatype WatchDecl = WatchDecl(ident: string, func: Function, deep: Option<Expr>, immediate: Option<Expr>)

  datatype OptionsComponent = OptionsComponent(
    components: Option<Expr>,
    inject: Option<Expr>,
    props: Option<Expr>,
    data: Option<Function>,
    computed: Option<seq<FnDecl>>,
    watch: Option<seq<WatchDecl>>,
    created: Option<Function>,
    mounted: Option<Function>,
    methods: Option<seq<FnDecl>>)

  datatype CompositionComponent = CompositionComponent(
    components: Option<Expr>,
    props: Option<Expr>,
    injectStmts: Option<seq<Stmt>>,
    refStmts: Option<seq<Stmt>>,
    createdStmts: Option<seq<Stmt>>,
    computed: Option<seq<Stmt>>,
    watch: Option<seq<Stmt>>,
    mounted: Option<seq<Stmt>>,
    methodDecls: Option<seq<Stmt>>)

  predicate NoSections(o: OptionsComponent) {
    && o.components.None? && o.inject.None? && o.props.None? && o.data.None?
    && o.computed.None? && o.watch.None? && o.created.None? && o.mounted.None? && o.methods.None?
  }

  predicate NoGroups(c: CompositionComponent) {
    && c.components.None? && c.props.None? && c.injectStmts.None? && c.refStmts.None?
    && c.createdStmts.None? && c.computed.None? && c.watch.None? && c.mounted.None? && c.methodDecls.None?
  }

  /** `OptionsComponent::default()`: every section absent. */
  function DefaultOptions(): (o: OptionsComponent)
    ensures NoSections(o)
  {
    OptionsComponent(None, None, None, None, None, None, None, None, None)
  }

  /** `CompositionComponent::default()`: every group absent. */
  function DefaultComposition(): (c: CompositionComponent)
    ensures NoGroups(c)
  {
    CompositionComponent(None, None, None, None, None, None, None, None, None)
  }
}
