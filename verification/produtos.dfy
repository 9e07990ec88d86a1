/** The product ("produto") handlers. Reading is public; creating, updating
    and deleting need a staff token, and that check comes before the id is
    validated. */
module Produtos {
  import opened Common

  /** One installment option of a price. */
  datatype Parcelamento = Parcelamento(parcelas: int, valor: real)
  /** A price with its installment options (prices are opaque values). */
  datatype Preco = Preco(semDesconto: real, aVista: real, parcelamentos: seq<Parcelamento>)
  /** An uploaded image's bytes. */
  datatype Imagem = Imagem(data: seq<bv8>)
  /** A size entry, handed to the store as the body sent it. */
  datatype Tamanho = Tamanho(fields: map<string, string>)

  /** A row of the product table with its nested prices, images and sizes. */
  datatype Produto = Produto(id: int, nome: string, tipo: string, cor: string, stars: Option<int>,
                             qtdEstoque: Option<int>, descricao: string, precos: seq<Preco>,
                             imagens: seq<Imagem>, tamanhos: seq<Tamanho>)

  type Table = map<int, Produto>

  /** Installment and price entries as the body sends them; other properties
      (`extra`) are dropped. */
  datatype ParcelamentoInput = ParcelamentoInput(parcelas: int, valor: real, extra: map<string, string>)
  datatype PrecoInput = PrecoInput(semDesconto: real, aVista: real, parcelamentos: Option<seq<ParcelamentoInput>>,
                                   extra: map<string, string>)

  /** The body of `createProduto`. */
  datatype ProdutoInput = ProdutoInput(nome: string, tipo: string, cor: string, stars: Option<int>,
                                       qtdEstoque: Option<int>, descricao: string,
                                       precos: Option<seq<PrecoInput>>, tamanhos: Option<seq<Tamanho>>)

  /** `list?.map(...) || []`: an absent list counts as empty. */
  function OrEmpty<T>(xs: Option<seq<T>>): (ys: seq<T>)
  {
    if xs.Some? then xs.value else []
  }

  /** `parcelamentos.map(p => ({ parcelas, valor }))`. */
  function MapParcelamentos(ps: seq<ParcelamentoInput>): (r: seq<Parcelamento>)
    ensures |r| == |ps|
    ensures forall i :: 0 <= i < |ps| ==> r[i] == Parcelamento(ps[i].parcelas, ps[i].valor)
  {
    if ps == [] then [] else [Parcelamento(ps[0].parcelas, ps[0].valor)] + MapParcelamentos(ps[1..])
  }

  /** One entry of `precos.map(...)`: both prices, and the installments
      mapped in order (none when the list is absent). */
  function ToPreco(p: PrecoInput): (r: Preco)
    ensures r.semDesconto == p.semDesconto && r.aVista == p.aVista
    ensures |r.parcelamentos| == |OrEmpty(p.parcelamentos)|
    ensures forall j :: 0 <= j < |r.parcelamentos| ==>
      r.parcelamentos[j].parcelas == OrEmpty(p.parcelamentos)[j].parcelas
      && r.parcelamentos[j].valor == OrEmpty(p.parcelamentos)[j].valor
  {
    Preco(p.semDesconto, p.aVista, MapParcelamentos(OrEmpty(p.parcelamentos)))
  }

  /** `precos.map(...)`. */
  function MapPrecos(ps: seq<PrecoInput>): (r: seq<Preco>)
    ensures |r| == |ps|
    ensures forall i :: 0 <= i < |ps| ==> r[i] == ToPreco(ps[i])
  {
    if ps == [] then [] else [ToPreco(ps[0])] + MapPrecos(ps[1..])
  }

  /** `files.map(file => ({ data: file.buffer }))`. */
  function ToImagens(files: seq<seq<bv8>>): (r: seq<Imagem>)
    ensures |r| == |files|
    ensures forall i :: 0 <= i < |files| ==> r[i].data == files[i]
  {
    if files == [] then [] else [Imagem(files[0])] + ToImagens(files[1..])
  }

  /** `getProdutoById`: 400 for a non-numeric id, then 404. */
  function GetProdutoById(id: Option<int>, produtos: Table): (r: Reply<Produto>)
    ensures id.None? ==> r == Fail(400, "Invalid produto ID")
    ensures id.Some? && id.value !in produtos ==> r == Fail(404, "Produto not found")
    ensures r.Ok? <==> id.Some? && id.value in produtos
    ensures r.Ok? ==> r == Ok(200, produtos[id.value])
  {
    if id.None? then Fail(400, "Invalid produto ID")
    else if id.value !in produtos then Fail(404, "Produto not found")
    else Ok(200, produtos[id.value])
  }

  /** `createProduto`: staff only; prices and their installments are mapped
      in order, an absent list of prices, sizes or files becomes empty. */
  function CreateProduto(auth: Option<Payload>, input: ProdutoInput, files: Option<seq<seq<bv8>>>,
                         produtos: Table, id: int): (r: (Reply<Produto>, Table))
    requires id !in produtos
    ensures r.0.Fail? <==> !IsStaff(auth)
    ensures r.0.Fail? ==> r == (Fail(403, "Only users can create produtos"), produtos)
    ensures r.0.Ok? ==>
      var p := r.0.body;
      && r.0.status == 201
      && r.1 == produtos[id := p]
      && p.id == id && p.nome == input.nome && p.tipo == input.tipo && p.cor == input.cor
      && p.stars == input.stars && p.qtdEstoque == input.qtdEstoque && p.descricao == input.descricao
      && |p.precos| == |OrEmpty(input.precos)|
      && (forall i :: 0 <= i < |p.precos| ==> p.precos[i] == ToPreco(OrEmpty(input.precos)[i]))
      && |p.imagens| == |OrEmpty(files)|
      && (forall i :: 0 <= i < |p.imagens| ==> p.imagens[i].data == OrEmpty(files)[i])
      && p.tamanhos == OrEmpty(input.tamanhos)
  {
    if !IsStaff(auth) then (Fail(403, "Only users can create produtos"), produtos)
    else
      var row := Produto(id, input.nome, input.tipo, input.cor, input.stars, input.qtdEstoque, input.descricao,
                         MapPrecos(OrEmpty(input.precos)), ToImagens(OrEmpty(files)), OrEmpty(input.tamanhos));
      (Ok(201, row), produtos[id := row])
  }

  /** The fields of `updatedData`; `None` means the key was not set.
      `imagens` holds the images to add. */
  datatype ProdutoData = ProdutoData(nome: Option<string>, tipo: Option<string>, cor: Option<string>,
                                     stars: Option<int>, qtdEstoque: Option<int>, descricao: Option<string>,
                                     imagens: Option<seq<Imagem>>)

  /** `updatedData` of `updateProduto`: strings when truthy, `stars` and
      `qtdEstoque` whenever present (so 0 is kept), images when at least one
      file was uploaded. */
  function UpdatedData(nome: Option<string>, tipo: Option<string>, cor: Option<string>, stars: Option<int>,
                       qtdEstoque: Option<int>, descricao: Option<string>, files: Option<seq<seq<bv8>>>)
    : (d: ProdutoData)
    ensures d.nome.Some? <==> Truthy(nome)
    ensures d.tipo.Some? <==> Truthy(tipo)
    ensures d.cor.Some? <==> Truthy(cor)
    ensures d.descricao.Some? <==> Truthy(descricao)
    ensures d.nome.Some? ==> d.nome == nome
    ensures d.tipo.Some? ==> d.tipo == tipo
    ensures d.cor.Some? ==> d.cor == cor
    ensures d.descricao.Some? ==> d.descricao == descricao
    ensures d.stars == stars && d.qtdEstoque == qtdEstoque
    ensures d.imagens.Some? <==> files.Some? && |files.value| > 0
    ensures d.imagens.Some? ==> |d.imagens.value| == |files.value|
    ensures d.imagens.Some? ==> forall i :: 0 <= i < |files.value| ==> d.imagens.value[i].data == files.value[i]
  {
    ProdutoData(if Truthy(nome) then nome else None,
                if Truthy(tipo) then tipo else None,
                if Truthy(cor) then cor else None,
                stars,
                qtdEstoque,
                if Truthy(descricao) then descricao else None,
                if files.Some? && |files.value| > 0 then Some(ToImagens(files.value)) else None)
  }

  /** The row after `update({ data })`: the scalar fields `data` sets, new
      images appended after the existing ones. */
  function Apply(p: Produto, data: ProdutoData): (d: Produto)
    ensures d.id == p.id && d.precos == p.precos && d.tamanhos == p.tamanhos
    ensures |p.imagens| <= |d.imagens| && d.imagens[..|p.imagens|] == p.imagens
  {
    p.(nome := if data.nome.Some? then data.nome.value else p.nome,
       tipo := if data.tipo.Some? then data.tipo.value else p.tipo,
       cor := if data.cor.Some? then data.cor.value else p.cor,
       stars := if data.stars.Some? then data.stars else p.stars,
       qtdEstoque := if data.qtdEstoque.Some? then data.qtdEstoque else p.qtdEstoque,
       descricao := if data.descricao.Some? then data.descricao.value else p.descricao,
       imagens := if data.imagens.Some? then p.imagens + data.imagens.value else p.imagens)
  }

  /** `updateProduto`: 403, then 400 for a non-numeric id; a missing row is
      the store's error (500). */
  function UpdateProduto(auth: Option<Payload>, id: Option<int>, nome: Option<string>, tipo: Option<string>,
                         cor: Option<string>, stars: Option<int>, qtdEstoque: Option<int>,
                         descricao: Option<string>, files: Option<seq<seq<bv8>>>, produtos: Table)
    : (r: (Reply<Produto>, Table))
    ensures !IsStaff(auth) ==> r == (Fail(403, "Only users can update produtos"), produtos)
    ensures IsStaff(auth) && id.None? ==> r == (Fail(400, "Invalid produto ID"), produtos)
    ensures IsStaff(auth) && id.Some? && id.value !in produtos ==> r == (Fail(500, "Failed to update produto"), produtos)
    ensures r.0.Fail? ==> r.1 == produtos
    ensures r.0.Ok? <==> IsStaff(auth) && id.Some? && id.value in produtos
    ensures r.0.Ok? ==>
      var (old_, new_) := (produtos[id.value], r.0.body);
      && r.0.status == 200
      && r.1 == produtos[id.value := new_]
      && new_.id == old_.id && new_.precos == old_.precos && new_.tamanhos == old_.tamanhos
      && new_.nome == (if Truthy(nome) then nome.value else old_.nome)
      && new_.tipo == (if Truthy(tipo) then tipo.value else old_.tipo)
      && new_.cor == (if Truthy(cor) then cor.value else old_.cor)
      && new_.descricao == (if Truthy(descricao) then descricao.value else old_.descricao)
      && new_.stars == (if stars.Some? then stars else old_.stars)
      && new_.qtdEstoque == (if qtdEstoque.Some? then qtdEstoque else old_.qtdEstoque)
      && |new_.imagens| == |old_.imagens| + |OrEmpty(files)|
      && new_.imagens[..|old_.imagens|] == old_.imagens
      && (forall i :: 0 <= i < |OrEmpty(files)| ==> new_.imagens[|old_.imagens| + i].data == OrEmpty(files)[i])
  {
    if !IsStaff(auth) then (Fail(403, "Only users can update produtos"), produtos)
    else if id.None? then (Fail(400, "Invalid produto ID"), produtos)
    else if id.value !in produtos then (Fail(500, "Failed to update produto"), produtos)
    else
      var data := UpdatedData(nome, tipo, cor, stars, qtdEstoque, descricao, files);
      var row := Apply(produtos[id.value], data);
      assert row.imagens == produtos[id.value].imagens + OrEmpty(data.imagens);
      (Ok(200, row), produtos[id.value := row])
  }

  /** `deleteProduto`: 403, then 400; 204 with only that row gone, or the
      store's error (500) for a missing row. */
  function DeleteProduto(auth: Option<Payload>, id: Option<int>, produtos: Table): (r: (Reply<()>, Table))
    ensures !IsStaff(auth) ==> r == (Fail(403, "Only users can delete produtos"), produtos)
    ensures IsStaff(auth) && id.None? ==> r == (Fail(400, "Invalid produto ID"), produtos)
    ensures IsStaff(auth) && id.Some? && id.value !in produtos ==> r == (Fail(500, "Failed to delete produto"), produtos)
    ensures r.0.Fail? ==> r.1 == produtos
    ensures r.0.Ok? <==> IsStaff(auth) && id.Some? && id.value in produtos
    ensures r.0.Ok? ==> r.0.status == 204 && r.1 == produtos - {id.value}
  {
    if !IsStaff(auth) then (Fail(403, "Only users can delete produtos"), produtos)
    else if id.None? then (Fail(400, "Invalid produto ID"), produtos)
    else if id.value !in produtos then (Fail(500, "Failed to delete produto"), produtos)
    else (Ok(204, ()), produtos - {id.value})
  }

  /** The statements of `updateProduto` that fill `updatedData`, one key at
      a time. */
  method BuildUpdatedData(nome: Option<string>, tipo: Option<string>, cor: Option<string>, stars: Option<int>,
                          qtdEstoque: Option<int>, descricao: Option<string>, files: Option<seq<seq<bv8>>>)
    returns (updatedData: ProdutoData)
    ensures updatedData == UpdatedData(nome, tipo, cor, stars, qtdEstoque, descricao, files)
  {
    updatedData := ProdutoData(None, None, None, None, None, None, None);
    if Truthy(nome) {
      updatedData := updatedData.(nome := nome);
    }
    if Truthy(tipo) {
      updatedData := updatedData.(tipo := tipo);
    }
    if Truthy(cor) {
      updatedData := updatedData.(cor := cor);
    }
    if stars.Some? {
      updatedData := updatedData.(stars := stars);
    }
    if qtdEstoque.Some? {
      updatedData := updatedData.(qtdEstoque := qtdEstoque);
    }
    if Truthy(descricao) {
      updatedData := updatedData.(descricao := descricao);
    }
    if files.Some? && |files.value| > 0 {
      updatedData := updatedData.(imagens := Some(ToImagens(files.value)));
    }
  }

  /** The product table of the running server. */
  class ProdutoController {
    var produtos: Table
    var nextId: int

    ghost predicate Valid()
      reads this
    {
      forall k :: k in produtos ==> k < nextId && produtos[k].id == k
    }

    constructor ()
      ensures Valid() && produtos == map[] && nextId == 1
    {
      produtos := map[];
      nextId := 1;
    }

    /** `createProduto`. */
    method CreateProdutoHandler(auth: Option<Payload>, input: ProdutoInput, files: Option<seq<seq<bv8>>>)
      returns (r: Reply<Produto>)
      requires Valid()
      modifies this
      ensures Valid()
      ensures old(nextId) !in old(produtos)
      ensures (r, produtos) == CreateProduto(auth, input, files, old(produtos), old(nextId))
      ensures nextId == if r.Ok? then old(nextId) + 1 else old(nextId)
    {
      if !IsStaff(auth) {
        return Fail(403, "Only users can create produtos");
      }
      var imagensData := ToImagens(OrEmpty(files));
      var row := Produto(nextId, input.nome, input.tipo, input.cor, input.stars, input.qtdEstoque,
                         input.descricao, MapPrecos(OrEmpty(input.precos)), imagensData, OrEmpty(input.tamanhos));
      produtos := produtos[nextId := row];
      nextId := nextId + 1;
      r := Ok(201, row);
    }

    /** `updateProduto`; `updatedData` is accumulated field by field. */
    method UpdateProdutoHandler(auth: Option<Payload>, id: Option<int>, nome: Option<string>, tipo: Option<string>,
                                cor: Option<string>, stars: Option<int>, qtdEstoque: Option<int>,
                                descricao: Option<string>, files: Option<seq<seq<bv8>>>)
      returns (r: Reply<Produto>)
      requires Valid()
      modifies this
      ensures Valid() && nextId == old(nextId)
      ensures (r, produtos) == UpdateProduto(auth, id, nome, tipo, cor, stars, qtdEstoque, descricao, files,
                                             old(produtos))
    {
      if !IsStaff(auth) {
        return Fail(403, "Only users can update produtos");
      }
      if id.None? {
        return Fail(400, "Invalid produto ID");
      }
      var updatedData := BuildUpdatedData(nome, tipo, cor, stars, qtdEstoque, descricao, files);
      if id.value !in produtos {
        return Fail(500, "Failed to update produto");
      }
      var row := Apply(produtos[id.value], updatedData);
      produtos := produtos[id.value := row];
      r := Ok(200, row);
    }

    /** `deleteProduto`. */
    method DeleteProdutoHandler(auth: Option<Payload>, id: Option<int>) returns (r: Reply<()>)
      requires Valid()
      modifies this
      ensures Valid() && nextId == old(nextId)
      ensures (r, produtos) == DeleteProduto(auth, id, old(produtos))
    {
      if !IsStaff(auth) {
        return Fail(403, "Only users can delete produtos");
      }
      if id.None? {
        return Fail(400, "Invalid produto ID");
      }
      if id.value !in produtos {
        return Fail(500, "Failed to delete produto");
      }
      produtos := produtos - {id.value};
      r := Ok(204, ());
    }
  }
}
