# Dapr trait decorator and request-path helper

This project models two parts of the Radius application platform's Go code
and proves properties of the models.

The first part is the **Dapr trait decorator** (`pkg/renderers/dapr/decorator.go`).
It is a workload renderer that wraps an inner renderer. It has two operations:

- **AllocateBindings** runs the inner renderer's binding allocation. It then adds a
  binding state for every declared binding of the Dapr invoke binding kind. This
  needs the workload's Dapr trait; the call fails if the trait is missing or cannot
  be decoded.
- **Render** runs the inner renderer. When the workload has a Dapr trait, Render
  adds Dapr sidecar annotations to every Kubernetes Deployment and every
  Unstructured Kubernetes object. If a Kubernetes-kind resource's payload is not a
  Kubernetes object, Render stops there. Whenever an error occurs, it still
  returns the resources it has.

The second part is **GetRelativePath** (`pkg/middleware/ucp_logging.go`). The
logging middleware uses it to log a request path relative to the server's base
path.

Files:

- `types.dfy` (module `RenderTypes`): the workload, binding, trait, output-resource
  and payload data, errors and their messages.
- `decimal.dfy` (module `Decimal`): the `%d` rendering of the app port, with a
  parser to prove the rendering loses nothing.
- `decorator.dfy` (module `DaprDecorator`): getAnnotations and setAnnotations, the
  annotations Render stamps, Render (with its loop in `Decorate`) and
  AllocateBindings.
- `ucp_logging.dfy` (module `UcpLogging`): GetRelativePath.

How collaborators are modelled:

- **The inner renderer.** Its result is an input: a `RenderOutcome` (resources and
  an optional error) or a `BindingsOutcome` (a map and an optional error).
- **The trait lookup.** `FindTrait(Kind, &trait)` is an input `TraitLookup`:
  `Absent`, `Malformed(error)` or `Present(trait)`. Go's `(found, err)` pair has
  four combinations. Both operations check the error before using `found`
  (AllocateBindings at lines 43-45; Render at line 81 returns `err` whatever
  `found` is), so three cases capture everything.
- **The `Kind` and `BindingKind` constants.** They are defined in a file that is
  not part of this model. AllocateBindings takes them as the parameters
  `traitKind` and `bindingKind`, so each proof holds for any values.
- **`resourcekinds.Kubernetes`.** This is the `Kubernetes` case of `ResourceKind`.

Render's contract determines its outputs completely, and so does AllocateBindings'
contract, for every order in which map entries are visited. Calling either
operation twice with the same inputs therefore gives the same result.

## Model

| member | source | states |
|---|---|---|
| DaprDecorator.Render | pkg/renderers/dapr/decorator.go:68-131 | Inner failure returns the inner resources and error unchanged, whatever the trait lookup says. A missing trait returns the inner resources with no error. A malformed trait returns the inner resources with the decode error. With a trait, every resource before the stop (see StopIndex) is decorated and every later resource is unchanged. The error is set exactly when there is a stop. The length never changes. |
| DaprDecorator.Decorate | pkg/renderers/dapr/decorator.go:89-130 | Render's loop: the same length; resources before the first halting resource are decorated, that resource and all later ones are untouched; the error is "non-Kubernetes payload" exactly when such a resource exists. |
| DaprDecorator.StopIndex | pkg/renderers/dapr/decorator.go:90-103 | The index of the first Kubernetes-kind resource whose payload is not a Kubernetes object, or the length of the sequence if there is none. No earlier resource halts. |
| DaprDecorator.WriteDaprAnnotations | pkg/renderers/dapr/decorator.go:115-125 | Render's sequence of conditional writes into one bag gives exactly the decorated bag `Annotate`. |
| DaprDecorator.DaprAnnotationsMeaning | pkg/renderers/dapr/decorator.go:115-125 | The Dapr keys are enabled and app-id, plus app-port when the port is non-zero, config when it is non-empty, and protocol when it is non-empty. enabled is "true", app-id is the app id, and app-port is the port in decimal. |
| DaprDecorator.AnnotateMeaning | pkg/renderers/dapr/decorator.go:110-127 | A decorated bag holds the old keys plus the written keys. enabled is "true". app-id is the trait's AppID, or the workload name if AppID is empty. The optional keys carry the trait's values. Every key that is not written keeps its old value. |
| DaprDecorator.AppPortAnnotation | pkg/renderers/dapr/decorator.go:117-119 | On a bag without app-port, decoration adds app-port exactly when the port is non-zero, and the value parses back to the port. |
| DaprDecorator.AnnotateIdempotent | pkg/renderers/dapr/decorator.go:115-125 | Decorating a bag twice gives the same bag as decorating it once. |
| DaprDecorator.GetAnnotations | pkg/renderers/dapr/decorator.go:133-153 | A bag exists exactly for Deployments and Unstructured objects. It is the template annotations or the object annotations, read as an empty map when nil. |
| DaprDecorator.StoreThenGet | pkg/renderers/dapr/decorator.go:133-159 | Writing a bag and reading it back gives that bag. The payload's shape and its other content are unchanged. |
| DaprDecorator.GetThenStore | pkg/renderers/dapr/decorator.go:133-159 | Writing back the bag just read leaves a payload with existing annotations unchanged. |
| DaprDecorator.DecoratedMeaning | pkg/renderers/dapr/decorator.go:90-159 | Decoration keeps the resource kind. It leaves unchanged every resource that is not Kubernetes-kind or whose payload is neither a Deployment nor Unstructured. For a decorated resource, the payload shape and other content are unchanged and its annotations read back as the decorated bag. |
| DaprDecorator.DecoratedByWrites | pkg/renderers/dapr/decorator.go:110-127 | After the app id is defaulted and the bag is written, the resource is the decorated resource. |
| DaprDecorator.DecoratedIdempotent | pkg/renderers/dapr/decorator.go:90-128 | Decorating a resource twice gives the same resource as decorating it once. This covers two chained Dapr decorators, and a payload shared by two resources when both are decorated. |
| DaprDecorator.AllocateBindings | pkg/renderers/dapr/decorator.go:28-65 | A map is returned exactly when there is no error. Inner failure gives a nil map and the inner error. With no binding of the decorator's kind, the inner map comes back unchanged, whatever the trait lookup says. Otherwise a malformed trait gives a nil map with the decode error. A missing trait gives a nil map with the trait-required error. With a trait, the keys are the inner keys plus the kind's bindings (the declared bindings of `bindingKind`, `BindingsOfKind`, decorator.go:36-39). Each of those bindings maps to component = instance name, binding = its name, kind = its declared kind, properties = {appId: AppID, or workload.Workload.Name if AppID is empty}. Every other inner entry is kept. |
| RenderTypes.TraitRequiredMessageNamesBoth | pkg/renderers/dapr/decorator.go:47 | The missing-trait error message contains both the trait kind and the binding kind. |
| Decimal.Digits | pkg/renderers/dapr/decorator.go:118 | The digits of a natural number are non-empty, all digits, and have no leading zero, except for zero itself, which is "0". |
| Decimal.DecimalStringWellFormed | pkg/renderers/dapr/decorator.go:118 | `%d` output is a well-formed decimal and starts with '-' exactly for negative numbers. |
| Decimal.DecimalRoundTrip | pkg/renderers/dapr/decorator.go:118 | Parsing the `%d` output gives back the number. |
| Decimal.DecimalInjective | pkg/renderers/dapr/decorator.go:118 | Different ports render to different app-port values. |
| UcpLogging.GetRelativePath | pkg/middleware/ucp_logging.go:34-37 | If the path starts with the base path, base path + result = path. Otherwise the result is the path itself. |
| UcpLogging.RelativePathIsSuffix | pkg/middleware/ucp_logging.go:34-37 | The result is a suffix of the path and is never longer than it. |
| UcpLogging.RelativePathUnique | pkg/middleware/ucp_logging.go:34-37 | If base path + rest = path, the result is that rest. |
| UcpLogging.RelativePathEdgeCases | pkg/middleware/ucp_logging.go:34-37 | An empty base path changes nothing, and a path relative to itself is "". |
| UcpLogging.RelativePathRoundTrip | pkg/middleware/ucp_logging.go:34-37 | Stripping the base path from base path + rest gives rest. |
| UcpLogging.RemovesOnlyOneOccurrence | pkg/middleware/ucp_logging.go:35-36 | Only one leading occurrence is removed: "/a" and "/a/a/x" give "/a/x". |

## Left out

- The inner `WorkloadRenderer`, FindTrait's JSON decoding, and the Trait struct definition are inputs, not implementations. They are defined outside this model.
- The `context.Context` argument is never read, so it is dropped. AllocateBindings' `resources` argument only goes to the inner renderer, so it is dropped too.
- Go map iteration order: AllocateBindings picks an arbitrary remaining binding on each step. Its contract holds for every order.
- AllocateBindings: the inner map is taken to be non-nil. If the inner renderer returned a nil map with no error and a Dapr binding existed, the Go code would panic writing into it. The model does not capture that panic.
- Render: payloads are values, so two resources sharing one payload object are two independent copies, and the model does not capture aliasing. In Go, a resource that shares its payload pointer with a decorated resource has its annotations changed too, even when it is not decorated itself: when it comes after the stop (decorator.go:96-103), or when it is not Kubernetes-kind (decorator.go:91). The model's Render returns such a resource unchanged. DecoratedIdempotent shows only that a shared object decorated through both resources gets the same annotations as one decorated once.
- Render: a typed nil `*Deployment` or `*Unstructured` would make the Go code panic. That is not modelled.
- Render: the trait's app id is defaulted at the first decorated resource (decorator.go:111-113). The model does the same. The result equals using the defaulted id everywhere, because each later write uses the same value.
- The trait's `AppPort` is a Go `int`, modelled as an unbounded integer. `%d` prints every 64-bit value exactly as `DecimalString` does.
- Strings are character sequences. Go compares its byte strings byte by byte, and for valid UTF-8 byte-prefix and character-prefix agree.
- `UseLogValues` (pkg/middleware/ucp_logging.go:17-32) wraps an HTTP handler and attaches a logger. That is plumbing with nothing to prove, so it is not modelled.
- The logger construction, the Bicep compiler invocation, the webhook scaffolding, the resource-type label helpers and the documentation generator are not part of this model. They are logging setup, an external process, boilerplate, code not shown, and command-line glue.
