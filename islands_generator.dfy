/** The island entry generator: the per-framework import and mount text,
    and the entry module that wraps them with the hydration scheduler. The
    scheduler's behaviour is modelled separately, by `IslandRuntime`. */
module IslandGenerator {
  import opened Text
  import opened EntryText

  /** `{ importStatement, newComponentStatement }`. */
  datatype FrameworkCode = FrameworkCode(importStatement: string, newComponentStatement: string)

  const ComponentImportHead := "import Component from \'"

  /** `import Component from '<componentFile>';` */
  function ComponentImport(componentFile: string): string
  {
    ComponentImportHead + componentFile + ImportTail
  }

  const ReactImport := "import React from \'" + "react\';\n"
  const Vue2Import := "import Vue from \'vue\';\n"
  const Vue3Import := "import { createApp }" + " from \'vue\';\n"

  const ReactMount := "React.createElement(" + "Component, props)"
  const Vue2Mount := "new Vue({ render: h " + "=> h(Component, { " + "props }) }).$mount(" + "el)"
  const Vue3Mount := "createApp(Component," + " props).mount(el)"
  const SvelteMount := "new Component({ " + "target: el, props: " + "props, hydrate: true" + " })"
  const DefaultMount := "typeof Component ===" + " \'function\' ? " + "Component(el, props)" +
    " : console.error(\'無效" + "的組件\')"

  /** The text of the default branch. */
  function DefaultCode(componentFile: string): FrameworkCode
  {
    FrameworkCode(ComponentImport(componentFile), DefaultMount)
  }

  /** `getFrameworkSpecificCode(framework, componentFile)`. Every branch
      imports `Component` from the component file, as its last import; the
      three frameworks with a runtime import it first; every tag outside
      the four named ones gets the default branch. */
  function FrameworkSpecificCode(framework: string, componentFile: string): (r: FrameworkCode)
    ensures EndsWith(r.importStatement, ComponentImport(componentFile))
    ensures framework == "react" ==> r == FrameworkCode(ReactImport + ComponentImport(componentFile), ReactMount)
    ensures framework == "vue2" ==> r == FrameworkCode(Vue2Import + ComponentImport(componentFile), Vue2Mount)
    ensures framework == "vue3" ==> r == FrameworkCode(Vue3Import + ComponentImport(componentFile), Vue3Mount)
    ensures framework == "svelte" ==> r == FrameworkCode(ComponentImport(componentFile), SvelteMount)
    ensures framework !in {"react", "vue2", "vue3", "svelte"} ==> r == DefaultCode(componentFile)
  {
    var c := ComponentImport(componentFile);
    if framework == "react" then
      EndsWithAppend(ReactImport, c);
      FrameworkCode(ReactImport + c, ReactMount)
    else if framework == "vue2" then
      EndsWithAppend(Vue2Import, c);
      FrameworkCode(Vue2Import + c, Vue2Mount)
    else if framework == "vue3" then
      EndsWithAppend(Vue3Import, c);
      FrameworkCode(Vue3Import + c, Vue3Mount)
    else if framework == "svelte" then
      EndsWithAppend([], c);
      FrameworkCode(c, SvelteMount)
    else
      EndsWithAppend([], c);
      DefaultCode(componentFile)
  }

  const SelectorHead := "[data-island=\""
  const SelectorTail := "\"]"

  /** `[data-island="<name>"]`, the selector of an island's elements. */
  function IslandSelector(name: string): string
  {
    SelectorHead + name + SelectorTail
  }

  function LoadingFunctionPieces(name: string): seq<string>
  {
    [ "\nfunction " + "handleIslandLoading(" + ") {\n  const islands " + "= document." +
        "querySelectorAll(\'",
      SelectorHead,
      name,
      SelectorTail,
      "\');\n  islands." + "forEach(el => {\n    " + "const props = JSON." + "parse(el.dataset." +
        "props || \'{}\');\n    " + "const loadStrategy =" + " props.client || \'" +
        "load\';\n    \n    " + "const " + "hydrateThisIsland = " + "() => {\n      if (!" +
        "el.hasAttribute(\'" + "data-island\')) {\n   " + "     return;\n      }" +
        "\n      hydrateIsland" + "(el);\n    };\n\n    " + "switch (loadStrategy" +
        ") {\n      case \'idle" + "\':\n        if (\'" + "requestIdleCallback\'" +
        " in window) {\n      " + "    window." + "requestIdleCallback(" + "hydrateThisIsland);\n" +
        "        } else {\n   " + "       setTimeout(" + "hydrateThisIsland, 0" +
        ");\n        }\n       " + " break;\n      case \'" + "visible\':\n        if" + " (\'" +
        "IntersectionObserver" + "\' in window) {\n     " + "     const observer " + "= new " +
        "IntersectionObserver" + "((entries) => {\n    " + "        entries." +
        "forEach(entry => {\n " + "             if (" + "entry.isIntersecting" +
        ") {\n                " + "hydrateThisIsland();" + "\n                " +
        "observer.unobserve(" + "el);\n              }" + "\n            });\n   " +
        "       });\n         " + " observer.observe(el" + ");\n        } else {\n" + "          " +
        "hydrateThisIsland();" + "\n        }\n        " + "break;\n      case \'" +
        "load\':\n      default" + ":\n        " + "hydrateThisIsland();" + "\n        break;\n    " +
        "}\n  });\n}\n" ]
  }

  /** `getHandleIslandLoadingFunction(name)`. */
  function LoadingFunction(name: string): string
  {
    Concat(LoadingFunctionPieces(name))
  }

  function EntryPieces(code: FrameworkCode, name: string): seq<string>
  {
    [ "\n",
      code.importStatement,
      "\n\nfunction " + "hydrateIsland(el) {\n" + "  const props = JSON" + ".parse(el.dataset." +
        "props || \'{}\');\n  el" + ".querySelector(\'[" + "placeholder]\')?." + "remove();\n  ",
      code.newComponentStatement,
      ";\n}\n\n",
      LoadingFunction(name),
      "\n\nif (typeof window " + "!== \'undefined\') {\n " + " if (document." + "readyState === \'" +
        "loading\') {\n    " + "document." + "addEventListener(\'" + "DOMContentLoaded\', " +
        "handleIslandLoading)" + ";\n  } else {\n    " + "handleIslandLoading(" +
        ");\n  }\n}\n\nexport " + "default Component;\n" ]
  }

  /** `generateEntryContent(componentFile, name, framework)`. */
  function EntryContent(componentFile: string, name: string, framework: string): string
  {
    Concat(EntryPieces(FrameworkSpecificCode(framework, componentFile), name))
  }

  /** The scheduler selects the island's elements by `[data-island="<name>"]`. */
  lemma LoadingSelects(name: string)
    ensures Contains(LoadingFunction(name), IslandSelector(name))
  {
    var ps := LoadingFunctionPieces(name);
    assert ps[1] == SelectorHead && ps[2] == name && ps[3] == SelectorTail;
    CarriesTriple(ps, 1, SelectorHead, name, SelectorTail);
  }

  /** An entry carries its framework's import and mount text, imports
      `Component` from the component file, and selects the island's
      elements by name. */
  lemma EntryCarries(componentFile: string, name: string, framework: string)
    ensures var code := FrameworkSpecificCode(framework, componentFile);
      var e := EntryContent(componentFile, name, framework);
      && Contains(e, code.importStatement) && Contains(e, code.newComponentStatement)
      && Contains(e, ComponentImport(componentFile)) && Contains(e, IslandSelector(name))
  {
    var code := FrameworkSpecificCode(framework, componentFile);
    var ps := EntryPieces(code, name);
    var e := Concat(ps);
    assert ps[1] == code.importStatement && ps[3] == code.newComponentStatement && ps[5] == LoadingFunction(name);
    CarriesPiece(ps, 1);
    CarriesPiece(ps, 3);
    CarriesPiece(ps, 5);
    EndsWithContains(code.importStatement, ComponentImport(componentFile));
    ContainsTrans(e, code.importStatement, ComponentImport(componentFile));
    LoadingSelects(name);
    ContainsTrans(e, LoadingFunction(name), IslandSelector(name));
  }
}
