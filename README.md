# Styled-component core, modelled in Dafny

This project models the styled-component core of twind, `src/styled/index.ts`. The core binds a list of style tokens to a host: a tag name, or another component. The result is a *styled definition*, a render wrapper with a stable marker class.

On every render the wrapper does four things:

- it computes a class string with the styling function `tw`;
- it merges that string with the incoming `class` and `className` props and the marker class;
- it resolves the `as` override and forwards the ref;
- it calls the bound rendering primitive `createElement`.

Around this sit four supporting parts:

- a per-styling-function context cache (`getContext`);
- a process-wide default binding, which `bind` layers partial bindings over;
- scoped bindings (`styled.bind`) and the curried entry point;
- the tag shorthand surface (`styled.h1`).

The modules follow the source's structure:

| module | models |
|---|---|
| `Values` | JavaScript values in props, truthiness, `String(v)`, JSON trees, thrown errors, own-property slots |
| `Tokens` | tokens, token functions and their runs, the styling function, the classification of `build` |
| `ContextCache` | `getContext`, as a pure function on the cache and as a class that updates the cache in place |
| `Build` | the evaluator closure of `build`, including the static path's remembered `result` |
| `Identity` | `stringifyFunctions`, the serialisation of `[tag, tokens]`, the identifier and `displayName` |
| `ClassNames` | the class-name merge `[…].filter(Boolean).join(' ')` |
| `Create` | `create` and the render wrapper |
| `Binding` | `styledContext`, `createStyledContext`, `bind`, `styled.bind`, `styled(tag, …tokens)` and its curried form |
| `Dispatch` | `tagHandler` |

Collaborators are parameters:

- The styling function is a `Styler`. It has an identity, the context it hands to a callback token, and an uninterpreted `compile` from the argument list to the class string.
- `hash` is an uninterpreted `string -> string`.
- The rendering of JSON to text is an uninterpreted `Json -> string`.
- A function value is represented by its metadata (`FnInfo`): name, `displayName`, `toJSON` output, `toString` text and `defaultProps`.

The guarded props view of `build` is modelled as follows:

- A token function's run reports the property names it read, in order, and how it ended.
- The run *escapes* when one of those names is `tw`, `theme` or `tag` and the props lack it.
- Instead of the sentinel exception, classification returns `Literal | Defer | Thunk`, or the error the run raised.

Two behaviours of the code are worth stating because they are easy to miss:

- The merged class name is not deduplicated (`src/styled/index.ts:251-258`). A `className` prop equal to the `class` prop appears twice.
- A component host rendered without `as` receives `as` set to the component itself, not an absent `as` (`src/styled/index.ts:249`, `266-270`).

## Model

| member | source | states |
|---|---|---|
| Tokens.Trips | src/styled/index.ts:172-181 | only `tw`, `theme` or `tag` can trip the guard, and never when the props hold that name |
| Tokens.Escapes | src/styled/index.ts:172-181 | a run that reads nothing never escapes, and nothing escapes when the props hold every reserved name |
| Tokens.HasFunction | src/styled/index.ts:184 | true iff some top-level token is a function |
| Tokens.Resolve | src/styled/index.ts:185-209 | non-functions pass through; a function of arity > 1 becomes a thunk (iff); an arity ≤ 1 function is deferred iff its run reads an absent reserved name; otherwise it yields its returned token, or fails with exactly the error it raised (iff) |
| Tokens.Interpolate | src/styled/index.ts:185-215 | on success the argument list has the tokens' length, each position is the classification of the token at that position, and non-function tokens appear unchanged; on failure some token fails with that error and every earlier token succeeded |
| Tokens.FactoryNeverRun | src/styled/index.ts:191-194 | a function of arity > 1 is never run, whatever its body: it becomes `(context) => token(props, context)` over the guarded props view the classification runs on |
| Tokens.RunThunk | src/styled/index.ts:190-215 | when the styling function calls a thunk, the token runs on the guarded view: it throws the escape signal iff it reads a reserved name the props lack, and otherwise returns its result or raises its error |
| Tokens.ThunkEscapesUncaught | src/styled/index.ts:190-204 | a two-parameter token that reads an absent `tw`, `theme` or `tag` is still classified as a thunk, and its later run throws the escape signal, which nothing catches |
| Tokens.CallbackNeverDeferred | src/styled/index.ts:196-205 | an arity ≤ 1 function that reads no reserved name is never passed on as a plugin |
| Tokens.ReservedPropsDisableDetection | src/styled/index.ts:172-181 | when the props hold `tw`, `theme` and `tag`, no function is deferred |
| ContextCache.Fetch | src/styled/index.ts:157-170 | the styling function is invoked iff no defined context is cached; afterwards the cache holds the returned context; no other entry changes |
| ContextCache.FetchTransparent | src/styled/index.ts:155-170 | while the cache agrees with the styling function, a lookup returns the context the styling function hands to callbacks, and the cache keeps agreeing |
| ContextCache.SecondFetch | src/styled/index.ts:157-170 | a second lookup returns the same context and the same cache, and probes again iff the first probe was never called back |
| ContextCache.Cache.constructor | src/styled/index.ts:155 | the cache starts empty |
| ContextCache.Cache.Get | src/styled/index.ts:157-170 | the in-place lookup returns and stores what `Fetch` describes, and records a probe exactly when `Fetch` probes |
| Build.Evaluator.constructor | src/styled/index.ts:219-222 | the remembered result starts unset, and no compilation has happened |
| Build.Expected | src/styled/index.ts:211-222 | without function tokens the result always succeeds, and is the remembered string when one is set; with function tokens it succeeds iff the classification does, failing with the classification's error |
| Build.Evaluator.Evaluate | src/styled/index.ts:183-223 | without function tokens: returns `tw(tokens)` and leaves the cache alone; it remembers the first non-empty result, compiles again on every call while the result is empty, and so compiles at most once when the result is non-empty; with function tokens: looks up the context as `Fetch` does, compiles the classified arguments, and leaves the remembered result unchanged |
| Build.DynamicArgsFollowTokens | src/styled/index.ts:185-215 | the argument list passed to `tw` matches the tokens position by position: non-functions unchanged, arity > 1 functions as thunks over the props |
| Identity.StringifyFunctions | src/styled/index.ts:225-236 | a function becomes the descriptor with keys `t`, `n`, `d`, `s` in that order: `t` is "function", `n` the name, `d` the `displayName` (undefined iff there is none), `s` the `toJSON()` output when there is one, else the source text |
| Identity.Serialise | src/styled/index.ts:243 | the pair `[tag, tokens]`: the host's JSON first, then an array holding each token's JSON at its position |
| Identity.AlikeSerialiseSame | src/styled/index.ts:243 | tokens equal up to the identity of their inline functions serialise identically |
| Identity.IdentifierDeterministic | src/styled/index.ts:243 | re-declaring a definition with textually identical but distinct inline functions yields the same marker class, whatever the hash |
| Identity.HostBySelector | src/styled/index.ts:287-292 | a styled definition used as a host is serialised by its selector: hosts with the same selector give the same identifier |
| Identity.DisplayName | src/styled/index.ts:275-277 | the label is `Styled(…)` around the tag name, around `displayName` when non-empty, else around `name`, and is `Styled(Component)` when that is empty |
| Identity.DisplayNameH1 | src/styled/styled.test.ts:59-62 | a definition over `h1` is labelled `Styled(h1)` |
| Values.Truthy | src/styled/index.ts:257 | undefined and null are never truthy; functions and objects always are |
| ClassNames.KeepTruthy | src/styled/index.ts:257 | `filter(Boolean)` keeps only truthy values, and never adds one |
| ClassNames.KeepTruthySingle | src/styled/index.ts:257 | one value is kept iff it is truthy |
| ClassNames.KeepTruthyAppend | src/styled/index.ts:257 | the filter works element by element: the filter of a concatenation is the concatenation of the filters, so order and multiplicity are kept |
| ClassNames.KeptExactly | src/styled/index.ts:257 | a value is kept iff it is one of the inputs and truthy |
| ClassNames.SplitJoinWords | src/styled/index.ts:258 | joining words without spaces with `' '` and splitting on `' '` gives the words back |
| ClassNames.ClassName | src/styled/index.ts:251-258 | with no `class`, no `className` and an empty evaluated class string, the class name is the marker class alone |
| ClassNames.ClassNameInOrder | src/styled/index.ts:251-258 | for every input, each candidate is kept or dropped on its own, and the kept ones are joined in the order `class`, `className`, marker, evaluated |
| ClassNames.ClassNameEmptyEvaluation | src/styled/index.ts:251-258 | an empty evaluated class string is dropped: the class name is the marker class alone |
| ClassNames.MarkerClassPresent | src/styled/index.ts:251-258 | the marker class is always one of the classes of the merged class name |
| ClassNames.FalsyClassesIgnored | src/styled/index.ts:251-258 | falsy `class` and `className` values are interchangeable and dropped; with only marker and evaluated classes the result is `marker + ' ' + evaluated` |
| ClassNames.ClassNameAllPresent | src/styled/index.ts:251-258 | with every candidate present, the order is `class`, `className`, marker, evaluated, separated by single spaces |
| ClassNames.ClassNameWithoutClass | src/styled/index.ts:251-258 | an absent `class` is skipped and the rest keep their order |
| ClassNames.ClassNameWithoutClassName | src/styled/index.ts:251-258 | an absent `className` is skipped and the rest keep their order |
| ClassNames.ClassNameExampleFull | src/styled/index.ts:251-258 | `class` "a", `className` "b", marker "X" and evaluated "c" merge to "a b X c" |
| ClassNames.ClassNameTestExamples | src/styled/styled.test.ts:345-372 | `{className: 'rounded-md'}` gives "rounded-md tw-oog4p9 text-sm" and `{class: 'hero'}` gives "hero tw-oog4p9 text-sm" |
| Create.EffectiveTw | src/styled/index.ts:239 | the binding's styling function when it holds one, the library default otherwise |
| Create.AsOrTag | src/styled/index.ts:249 | `as` when it is not undefined, the host otherwise |
| Create.Rest | src/styled/index.ts:249 | the props without `as` and `class`, every other key unchanged |
| Create.ElementType | src/styled/index.ts:266-272 | a component host is rendered itself; a host tag is replaced by a defined `as` |
| Create.ElementProps | src/styled/index.ts:249-270 | no `class`; `className` is the merged class name; `ref` set exactly when forwarding; `as` present iff the host is a component, holding the override; every other prop kept, and nothing else added |
| Create.StepwiseProps | src/styled/index.ts:251-270 | the wrapper's in-place writes, in their order, produce exactly `ElementProps` |
| Create.CreateElement | src/styled/index.ts:272 | the stub fails with the configuration message; a missing primitive fails as "not a function"; any other primitive receives type and props |
| Create.StyledComponent.constructor | src/styled/index.ts:238-295 | the identifier is the hash of the serialised host and tokens; the label is `DisplayName`; a component host's `defaultProps` are inherited; the evaluator uses the effective styling function and starts unset |
| Create.StyledComponent.ToString | src/styled/index.ts:287-292 | `'.' + id` |
| Create.StyledComponent.ToJSON | src/styled/index.ts:287-292 | the same selector as `toString` |
| Create.StyledComponent.Info | src/styled/index.ts:275-292 | the function object seen as a host or token serialises and converts to its selector; without forwarding it is named `Styled`, labelled, and carries the inherited default props |
| Create.Rendered | src/styled/index.ts:249-273 | the outcome of a render: the class evaluation's error first; else the stub fails with the configuration message and a missing primitive as "not a function"; else the bound primitive receives the type `ElementType` and props without `class`, with the merged class name, and with the ref when forwarding |
| Create.StyledComponent.Render | src/styled/index.ts:249-273 | one render: the class evaluation over the props without `as` and `class`, then the merged props and type handed to the rendering primitive; the cache, the probes, the remembered result and the compilations change exactly as in `Evaluate` |
| Create.AsOnIntrinsic | src/styled/index.ts:249-272 | on a host tag, a defined `as` is the rendered type and neither `as` nor `class` is passed on |
| Create.AsOnComposite | src/styled/index.ts:266-270 | on a component host, the component is the rendered type and the override arrives as `props.as` |
| Create.CompositeWithoutAs | src/styled/index.ts:249-270 | on a component host without an override, `props.as` is the component itself |
| Create.RefOnlyWithForwardRef | src/styled/index.ts:260-264 | the ref reaches the props iff a forwarding capability is bound |
| Create.StubFails | src/styled/index.ts:297-303 | with the default stub, every render fails: with the class evaluation's error when that fails first, else with the configuration message |
| Create.ComponentAsExample | src/styled/styled.test.ts:315-343 | `Button({as: 'button', href})` over the component `Span` renders `Span` with props `as`, `href` and the merged class name |
| Binding.Read | src/styled/index.ts:307 | reading an absent key gives a present undefined; a present key keeps its value |
| Binding.Over | src/styled/index.ts:314 | in a spread, the top object's key wins whenever it is present, even when it holds undefined |
| Binding.Spread | src/styled/index.ts:314 | each key of the result is the top binding's when present there, the base binding's otherwise |
| Binding.CreateStyledContext | src/styled/index.ts:305-311 | a bare primitive becomes `{createElement}`; the styling function is the binding object's own when it has the key, else the given one, else the default binding's at this moment; the object's `createElement` and `forwardRef` are taken as they are |
| Binding.EntryContext | src/styled/index.ts:344 | without a receiver `styled` uses the default binding; a function receiver becomes `{createElement}` over the default's styling function; a bound entry point uses its fixed binding |
| Binding.StyledModule.constructor | src/styled/index.ts:297-303 | the default binding starts as the throwing stub and the library's default styling function; the cache starts empty |
| Binding.StyledModule.Bind | src/styled/index.ts:313-315 | the new default binding is the shallow merge of the created binding over the current one |
| Binding.StyledModule.BindScoped | src/styled/index.ts:351-358 | the bound entry point fixes a binding created from the default binding as it is at the bind call |
| Binding.StyledModule.Styled | src/styled/index.ts:339-349 | with tokens, a fresh definition over the call's binding, host and tokens, with its identifier, label, inherited default props and an unset evaluator over the effective styling function; without tokens, the curried form that keeps the call's binding |
| Binding.StyledModule.Complete | src/styled/index.ts:348 | the curried form creates a definition over the binding fixed at the first call, with its identifier, label, inherited default props and an unset evaluator over the effective styling function |
| Binding.BindPrecedence | src/styled/index.ts:313-315 | after `bind`, each of `createElement` and `forwardRef` is the new binding's when present there and keeps its previous value otherwise, and the styling function is the created binding's |
| Binding.BarePragmaIsCreateElement | src/styled/index.ts:310 | a bare primitive binds exactly as `{createElement: primitive}` |
| Binding.BindKeepsTw | src/styled/index.ts:305-315 | a later `bind` without a styling function keeps the one bound earlier |
| Binding.BoundKeepsContext | src/styled/index.ts:351-358 | every call of a bound entry point uses the binding fixed at `styled.bind`, whatever the default binding has become, whatever the receiver |
| Binding.UnboundUsesDefault | src/styled/index.ts:344 | without a receiver, `styled` uses the default binding as it is at the call |
| Binding.DefaultBindingFails | src/styled/index.ts:297-303 | before any `bind`, rendering fails with "Missing createElement. Call setup or bind before styled." |
| Dispatch.TagHandler | src/styled/index.ts:324-334 | a key is a shorthand iff it is a string other than `bind`, and the shorthand's host is that key; every other key is an ordinary property |
| Dispatch.InterceptedKeys | src/styled/index.ts:326-328 | `call` and `name` are intercepted as shorthands; `bind` and symbols are not |
| Dispatch.ShorthandReceiver | src/styled/index.ts:330-332 | the shorthand's receiver when there is one, else the object read from unless it is the target |
| Dispatch.ShorthandContext | src/styled/index.ts:331 | as written: on the unbound entry point without a receiver of its own, the object read from becomes the binding; a bound entry point uses its fixed binding |
| Dispatch.ShorthandLeaksReceiver | src/styled/index.ts:330-332 | as written, `styled.h1` on the unbound entry point binds the entry point itself as rendering primitive and drops the forwarding capability, so its binding differs from that of `styled('h1')` |
| Dispatch.OwnReceiver | src/styled/index.ts:331 | corrected half of the finding below (the code never drops it): the entry point as receiver is dropped, any other receiver kept |
| Dispatch.ShorthandLikeCall | src/styled/index.ts:330-332 | corrected, a shorthand call uses exactly the binding of a direct call with the tag, on both entry points |
| Dispatch.BoundShorthandLikeCall | src/styled/index.ts:330-332 | a bound entry point's shorthand uses the bound binding, as written |
| Dispatch.CallShorthand | src/styled/index.ts:330-332 | corrected half of the finding below: a shorthand call creates the definition over the key as host tag, under the corrected receiver, over the call's tokens and the effective styling function, with the same identifier and label as `styled(key)`, no inherited default props and an unset evaluator |

## Findings

| source | as written | input that shows it | evidently intended | confidence | as-written member | corrected member |
|---|---|---|---|---|---|---|
| src/styled/index.ts:330-331 | the shorthand passes the intercepting wrapper as receiver when it has none; when it is called as a method, its receiver is that wrapper anyway. The unbound `styled` then turns it into the binding `{createElement: styled}` | `bind({createElement: h})`, then `styled.h1('text-sm')({})`: the primitive called is `styled`, not `h`, so the render returns a new definition rather than an element. The bound variants the tests use ignore the receiver | `styled.h1(…)` behaves as `styled('h1', …)` and uses the default binding | medium, not executed | Dispatch.ShorthandLeaksReceiver | Dispatch.ShorthandLikeCall |

## Left out

- Proxy and Reflect are not modelled as such. The guarded props view becomes the list of names a token function's run reads. The tag-handler wrapper becomes the `TagHandler` lookup.
- The context cache is keyed by a weak map. Garbage collection and eviction are not modelled; the cache is an ordinary map keyed by the styling function's identity.
- The internals of the styling function are not modelled: parsing, compiling, stylesheet injection, and errors thrown while compiling. The same goes for the hash function, the rendering of JSON to text, and `Function.prototype.toString`. So the literal hashes of the tests (`tw-1ywwrkz`, …) and the emitted CSS cannot be reproduced.
- Rendering semantics of the primitive and of `forwardRef` are not modelled, and neither is React. The rendering primitive's result is the request it received. A forwarding capability is an abstract map on function metadata, assumed to return a function.
- Create.StyledComponent.Info: says nothing of `name`, `displayName` and `defaultProps` when a forwarding capability is bound, because the wrapped object is the capability's own.
- The TypeScript overload interfaces and the `Tags` vocabulary are left out: they are types only, and at run time every string key except `bind` is intercepted.
- `Function.prototype.bind` is modelled only by its effect: a bound entry point carries its binding and ignores the receiver. Reading `bind` on a bound entry point reaches the native `Function.prototype.bind`, which is not modelled.
- The styling function never runs a thunk inside the model: `compile` is a collaborator, so the escape signal a thunk throws out of it (`Tokens.RunThunk`) does not reach the modelled render outcome. The thunk holds the guarded view, so a read of an absent `tw`, `theme` or `tag` inside it throws the internal escape signal out of the styling function instead of a value or a user error.
- Token functions run only as far as the model needs: what they read, and what they return or throw. A user catching the escape sentinel inside a token function is not modelled.
- `NaN` truthiness and non-string `displayName` or `name` values are not modelled.
- Numbers are whole numbers (`Num(n: int)`). Fractional numbers in props or tokens are not modelled, and neither is their text (`String(1.5)`) or their JSON form.
- The test harness and the virtual injector are not part of this model. So is the React adapter and its test (`src/styled/react/`).
- The static path's remembered result is a string in which the empty string also stands for "unset". The source treats `undefined` and `''` alike (`result || …`), so both recompute.
